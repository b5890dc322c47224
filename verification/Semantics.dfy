// The reference semantics: structured execution in which every scope cleans up
// after itself, whatever makes control leave it.
module Semantics {
  import opened Syntax

  // A call as it happened (checked says whether its exception was tested for),
  // a flag stored without a call, or the destruction of a value.
  datatype Event =
    | Called(f: Fn, args: seq<Slot>, out: Slot, flag: bool, threw: bool, checked: bool)
    | Stored(out: Slot, flag: bool)
    | Destroyed(v: Slot)

  type Trace = seq<Event>

  // What the slots hold. It is a function of the events so far.
  type Memory = map<Slot, bool>

  function Load(m: Memory, s: Slot): bool {
    if s in m then m[s] else false
  }

  function Write(m: Memory, e: Event): Memory {
    if e.Destroyed? then m else m[e.out := e.flag]
  }

  function Replay(t: Trace): Memory {
    if t == [] then map[] else Write(Replay(t[..|t| - 1]), t[|t| - 1])
  }

  // What a call answers: whether it throws, and the flag it leaves in its output.
  datatype Reply = Reply(threw: bool, flag: bool)

  // The rest of the program's state, seen through its answers to a call with
  // operands in given slots: what those hold, and any store that evolves with
  // the calls made, is a function of the history.
  type World = (Trace, Fn, seq<Slot>) -> Reply

  function Answer(w: World, t: Trace, f: Fn, args: seq<Slot>): Reply {
    if f.ThrowValue? then Reply(true, false) else w(t, f, args)
  }

  datatype Outcome =
    | Normal
    | Broke
    | Continued
    | Returned(values: seq<bool>)
    | Threw
    | Went(l: string)
    | Stuck      // an unreachable statement was reached
    | OutOfFuel

  // fuel bounds loop iterations and gotos; fuel is what is left of it.
  datatype Run = Run(out: Outcome, t: Trace, fuel: nat)

  // The result of an expression: its flag, and the temporaries it leaves behind
  // for the enclosing statement to destroy.
  datatype Evaled = Evaled(threw: bool, t: Trace, flag: bool, temps: seq<Slot>)

  function Drop(v: Slot, t: Trace): Trace {
    if v.prim then t else t + [Destroyed(v)]
  }

  // Destroys values, last first.
  function DropAll(vs: seq<Slot>, t: Trace): Trace {
    if vs == [] then t else DropAll(vs[..|vs| - 1], Drop(vs[|vs| - 1], t))
  }

  function EvalInto(w: World, e: Expr, out: Slot, t: Trace, check: bool): Evaled
    decreases e, 0
  {
    match e
    case Lit(b, _) => Evaled(false, t + [Stored(out, b)], b, [])
    case Call(f, args, _, _) =>
      var a := EvalArgs(w, args, |args|, t, check);
      if a.threw then a else CallNow(w, f, Homes(args), out, a, check)
    case And(l, r, _) =>
      var a := EvalRef(w, l, t, check);
      if a.threw then a
      else if !a.flag then a.(t := a.t + [Stored(out, false)])
      else EvalArm(w, r, out, a, check)
    case Or(l, r, _) =>
      var a := EvalRef(w, l, t, check);
      if a.threw then a
      else if a.flag then a.(t := a.t + [Stored(out, true)])
      else EvalArm(w, r, out, a, check)
  }

  // A call whose operands, in the slots args, were evaluated by a. An unchecked
  // call carries on whatever it answers.
  function CallNow(w: World, f: Fn, args: seq<Slot>, out: Slot, a: Evaled, check: bool): Evaled {
    var reply := Answer(w, a.t, f, args);
    var t := a.t + [Called(f, args, out, reply.flag, reply.threw, check)];
    Evaled(check && reply.threw, t, reply.flag, a.temps)
  }

  // The second operand of and/or: its temporaries end with it.
  function EvalArm(w: World, r: Expr, out: Slot, a: Evaled, check: bool): Evaled
    decreases r, 2
  {
    var b := EvalRef(w, r, a.t, check);
    if b.threw then b.(temps := a.temps + b.temps)
    else Evaled(false, DropAll(b.temps, b.t + [Stored(out, b.flag)]), b.flag, a.temps)
  }

  function EvalRef(w: World, e: Expr, t: Trace, check: bool): Evaled
    decreases e, 1
  {
    var a := EvalInto(w, e, Home(e), t, check);
    if a.threw then a else a.(temps := a.temps + [Home(e)])
  }

  // The first n operands, left to right.
  function EvalArgs(w: World, args: seq<Expr>, n: nat, t: Trace, check: bool): Evaled
    requires n <= |args|
    decreases args, n
  {
    if n == 0 then Evaled(false, t, false, [])
    else
      var a := EvalArgs(w, args, n - 1, t, check);
      if a.threw then a
      else
        var b := EvalRef(w, args[n - 1], a.t, check);
        b.(temps := a.temps + b.temps)
  }

  // A whole expression statement or condition.
  function EvalWhole(w: World, e: Expr, t: Trace, check: bool): Evaled {
    var a := EvalRef(w, e, t, check);
    Evaled(a.threw, DropAll(a.temps, a.t), a.flag, [])
  }

  // The first n initialisers of a binding or return. When one throws, its
  // temporaries and the outputs built before it are destroyed.
  function EvalInits(w: World, inits: seq<Init>, n: nat, t: Trace, check: bool): (r: Run)
    requires n <= |inits|
    ensures r.out == Normal || r.out == Threw
  {
    if n == 0 then Run(Normal, t, 0)
    else
      var a := EvalInits(w, inits, n - 1, t, check);
      if a.out != Normal then a
      else
        var b := EvalInto(w, inits[n - 1].e, inits[n - 1].out, a.t, check);
        var t' := DropAll(b.temps, b.t);
        if b.threw then Run(Threw, DropAll(Slots(inits[..n - 1]), t'), 0)
        else Run(Normal, t', 0)
  }

  // The flags of the first n initialisers.
  function Flags(w: World, inits: seq<Init>, n: nat, t: Trace, check: bool): (fs: seq<bool>)
    requires n <= |inits|
    ensures |fs| == n
  {
    if n == 0 then []
    else
      Flags(w, inits, n - 1, t, check)
        + [EvalInto(w, inits[n - 1].e, inits[n - 1].out, EvalInits(w, inits, n - 1, t, check).t, check).flag]
  }

  // Statements. check is false inside cleanup bodies, where exceptions are not
  // tested for.
  function Exec(w: World, s: Stmt, t: Trace, check: bool, fuel: nat): (r: Run)
    ensures r.fuel <= fuel
    decreases fuel, Size(s), 0
  {
    match s
    case Block(body) =>
      ExecBlock(w, body, 0, t, check, fuel)
    case Label(_) => Run(Normal, t, fuel)
    case Goto(l) => Run(Went(l), t, fuel)
    case Var(inits) => EvalInits(w, inits, |inits|, t, check).(fuel := fuel)
    case Eval(e) =>
      var a := EvalWhole(w, e, t, check);
      Run(if a.threw then Threw else Normal, a.t, fuel)
    case Return(inits) =>
      var a := EvalInits(w, inits, |inits|, t, check);
      Run(if a.out == Normal then Returned(Flags(w, inits, |inits|, t, check)) else a.out, a.t, fuel)
    case Throw(args) =>
      var a := EvalArgs(w, args, |args|, t, check);
      var b := if a.threw then a else CallNow(w, ThrowValue, Homes(args), Slot(Temp, 0, true), a, check);
      Run(if b.threw then Threw else Stuck, DropAll(b.temps, b.t), fuel)
    case If(pre, kind, cond, thn, els) =>
      var p := ExecPre(w, pre, |pre|, t, check, fuel);
      if p.out != Normal then p
      else
        var c := EvalWhole(w, cond, p.t, check);
        Leave(w,
              if c.threw then Run(Threw, c.t, p.fuel)
              else if kind.StaticTrue? || (kind.Dynamic? && c.flag) then Exec(w, thn, c.t, check, p.fuel)
              else Exec(w, els, c.t, check, p.fuel),
              pre, |pre|)
    case While(pre, cond, loop) =>
      if fuel == 0 then Run(OutOfFuel, t, 0)
      else
        var p := ExecPre(w, pre, |pre|, t, check, fuel - 1);
        if p.out != Normal then p
        else
          var c := EvalWhole(w, cond, p.t, check);
          var r := if c.threw then Run(Threw, c.t, p.fuel)
                   else if c.flag then Exec(w, loop, c.t, check, p.fuel)
                   else Run(Broke, c.t, p.fuel);
          var r' := Leave(w, LoopExit(r), pre, |pre|);
          if r'.out == Normal && r.out != Broke then Exec(w, s, r'.t, check, r'.fuel) else r'
    case Break => Run(Broke, t, fuel)
    case Continue => Run(Continued, t, fuel)
    case Try(tried, handler) =>
      var r := Exec(w, tried, t, check, fuel);
      if r.out == Threw then Exec(w, handler, r.t, check, r.fuel) else r
    case Finally(_) => Run(Normal, t, fuel)
    case OnError(_) => Run(Normal, t, fuel)
    case Unreachable => Run(Stuck, t, fuel)
  }

  // How one pass of a loop body ends: break and continue go no further.
  function LoopExit(r: Run): Run {
    if r.out == Broke || r.out == Continued then r.(out := Normal) else r
  }

  // Block items from position i.
  function ExecBlock(w: World, ss: seq<Stmt>, i: nat, t: Trace, check: bool, fuel: nat): (r: Run)
    requires i <= |ss|
    ensures r.fuel <= fuel
    decreases fuel, SizeAll(ss), 1, |ss| - i
  {
    if i == |ss| then Leave(w, Run(Normal, t, fuel), ss, i)
    else
      SizeOfItem(ss, i);
      var r := Exec(w, ss[i], t, check, fuel);
      match r.out
      case Normal => ExecBlock(w, ss, i + 1, r.t, check, r.fuel)
      case Went(l) =>
        var q := FindLabel(ss, l, i);
        if q < 0 then Leave(w, r, ss, i)
        else
          KeptLight(ss, i, Height(ss, q, i));
          var u := Unwind(w, Own(ss, i)[Height(ss, q, i)..], false, r.t, r.fuel);
          if u.out != Normal then u
          else if u.fuel == 0 then Run(OutOfFuel, u.t, 0)
          else ExecBlock(w, ss, q + 1, u.t, check, u.fuel - 1)
      case _ => Leave(w, r, ss, i)
  }

  // How many entries of the block are kept by a goto from item i to the label
  // at q: those present when the label was collected.
  function Height(ss: seq<Stmt>, q: nat, i: nat): (h: nat)
    requires q <= |ss| && SegmentStart(ss, q) <= i <= |ss|
    ensures h <= |Own(ss, i)|
  {
    OwnGrows(ss, SegmentStart(ss, q), i);
    |Own(ss, SegmentStart(ss, q))|
  }

  lemma KeptLight(ss: seq<Stmt>, i: nat, h: nat)
    requires i <= |ss| && h <= |Own(ss, i)|
    ensures Weight(Own(ss, i)[h..]) < SizeAll(ss)
  {
    OwnLight(ss, i);
    assert Own(ss, i)[..h] + Own(ss, i)[h..] == Own(ss, i);
    WeightConcat(Own(ss, i)[..h], Own(ss, i)[h..]);
  }

  lemma OwnGrows(ss: seq<Stmt>, i: nat, j: nat)
    requires i <= j <= |ss|
    ensures Own(ss, i) <= Own(ss, j)
  {
    if i < j {
      OwnGrows(ss, i, j - 1);
    }
  }

  // The bindings and expressions in front of a condition; they own their
  // entries until the statement ends.
  function ExecPre(w: World, pre: seq<Stmt>, n: nat, t: Trace, check: bool, fuel: nat): (r: Run)
    requires n <= |pre|
    ensures r.fuel <= fuel
    decreases fuel, SizeAll(pre), 1, n
  {
    if n == 0 then Run(Normal, t, fuel)
    else
      var a := ExecPre(w, pre, n - 1, t, check, fuel);
      if a.out != Normal then a
      else
        SizeOfItem(pre, n - 1);
        var r := Exec(w, pre[n - 1], a.t, check, a.fuel);
        if r.out == Normal then r else Leave(w, r, pre, n - 1)
  }

  // Leaving a scope whose first i items have run.
  function Leave(w: World, r: Run, ss: seq<Stmt>, i: nat): (r': Run)
    requires i <= |ss|
    ensures r'.fuel <= r.fuel
    decreases r.fuel, SizeAll(ss), 0
  {
    OwnLight(ss, i);
    Finish(w, r, Own(ss, i))
  }

  // Control leaves with r.out: the entries are cleaned up, onerror bodies
  // included exactly when an exception is passing.
  function Finish(w: World, r: Run, es: seq<Entry>): (r': Run)
    ensures r'.fuel <= r.fuel
    decreases r.fuel, Weight(es), |es| + 1
  {
    if r.out == Stuck || r.out == OutOfFuel then r
    else
      var u := Unwind(w, es, r.out == Threw, r.t, r.fuel);
      if u.out == Normal then u.(out := r.out) else u
  }

  // Cleans up entries, last first.
  function Unwind(w: World, es: seq<Entry>, exn: bool, t: Trace, fuel: nat): (r: Run)
    ensures r.fuel <= fuel
    decreases fuel, Weight(es), |es|
  {
    if es == [] then Run(Normal, t, fuel)
    else
      var r := match es[|es| - 1]
        case Value(v) => Run(Normal, Drop(v, t), fuel)
        case Final(b) => Exec(w, Block(b), t, false, fuel)
        case Error(b) => if exn then Exec(w, Block(b), t, false, fuel) else Run(Normal, t, fuel);
      if r.out != Normal then r else Unwind(w, es[..|es| - 1], exn, r.t, r.fuel)
  }
}
