// The compile-time evaluator: it interprets the same statements on a stack of
// values of its own, without exceptions.
module Evaluator {
  import opened Syntax
  import opened Semantics

  // What has happened, and stackEValues.
  datatype State = State(t: Trace, stack: seq<Slot>)

  // Termination
  datatype End = Fell | Broken | Continuing | Returning(values: seq<bool>) | Unfinished | Unsupported

  datatype Ended = Ended(end: End, st: State, fuel: nat)

  function PushValue(st: State, v: Slot): State {
    st.(stack := st.stack + [v])
  }

  function Happens(st: State, e: Event): State {
    st.(t := st.t + [e])
  }

  // evalDestroyAndPopStack
  function PopStack(st: State, marker: nat): State
    requires marker <= |st.stack|
  {
    State(DropAll(st.stack[marker..], st.t), st.stack[..marker])
  }

  // ----- expressions --------------------------------------------------------

  datatype Flagged = Flagged(st: State, flag: bool)

  // evalExpr: the flag is what a condition would read.
  function EvInto(w: World, e: Expr, out: Slot, st: State): (r: Flagged)
    ensures st.stack <= r.st.stack
    decreases e, 0
  {
    match e
    case Lit(b, _) => Flagged(Happens(st, Stored(out, b)), b)
    case Call(f, args, _, _) =>
      var st1 := EvArgs(w, args, |args|, st);
      var reply := Answer(w, st1.t, f, Homes(args));
      Flagged(Happens(st1, Called(f, Homes(args), out, reply.flag, reply.threw, true)), reply.flag)
    case And(l, r, _) =>
      var a := EvRef(w, l, st);
      var b := if a.flag then EvRef(w, r, a.st) else a;
      Flagged(Happens(b.st, Stored(out, b.flag)), b.flag)
    case Or(l, r, _) =>
      var a := EvRef(w, l, st);
      var b := if a.flag then a else EvRef(w, r, a.st);
      Flagged(Happens(b.st, Stored(out, b.flag)), b.flag)
  }

  // evalExprAsRef: the slot is allocated first.
  function EvRef(w: World, e: Expr, st: State): (r: Flagged)
    ensures st.stack <= r.st.stack
    decreases e, 1
  {
    EvInto(w, e, Home(e), PushValue(st, Home(e)))
  }

  function EvArgs(w: World, args: seq<Expr>, n: nat, st: State): (r: State)
    requires n <= |args|
    ensures st.stack <= r.stack
    decreases args, n
  {
    if n == 0 then st else EvRef(w, args[n - 1], EvArgs(w, args, n - 1, st)).st
  }

  // A whole expression statement or condition.
  function EvWhole(w: World, e: Expr, st: State): (r: Flagged)
    ensures r.st.stack == st.stack
  {
    var a := EvRef(w, e, st);
    Flagged(PopStack(a.st, |st.stack|), a.flag)
  }

  // evalMultiInto: temporaries stay until all values are there.
  function EvInits(w: World, inits: seq<Init>, n: nat, st: State): (r: State)
    requires n <= |inits|
    ensures st.stack <= r.stack
  {
    if n == 0 then st else EvInto(w, inits[n - 1].e, inits[n - 1].out, EvInits(w, inits, n - 1, st)).st
  }

  // The flags of the first n of them.
  function EvFlags(w: World, inits: seq<Init>, n: nat, st: State): seq<bool>
    requires n <= |inits|
  {
    if n == 0 then []
    else EvFlags(w, inits, n - 1, st) + [EvInto(w, inits[n - 1].e, inits[n - 1].out, EvInits(w, inits, n - 1, st)).flag]
  }

  function EvMulti(w: World, inits: seq<Init>, st: State): (r: State)
    ensures r.stack == st.stack
  {
    PopStack(EvInits(w, inits, |inits|, st), |st.stack|)
  }

  // evalBinding: the variables' storage comes first.
  function EvBinding(w: World, inits: seq<Init>, st: State): (r: State)
    ensures r.stack == st.stack + Slots(inits)
  {
    EvMulti(w, inits, st.(stack := st.stack + Slots(inits)))
  }

  // ----- statements ---------------------------------------------------------

  function EvPre(w: World, pre: seq<Stmt>, n: nat, st: State): (r: State)
    requires n <= |pre|
    ensures st.stack <= r.stack
  {
    if n == 0 then st
    else
      var a := EvPre(w, pre, n - 1, st);
      match pre[n - 1]
      case Var(inits) => EvBinding(w, inits, a)
      case Eval(e) => EvWhole(w, e, a).st
      case _ => a
  }

  // evalStatement, without labels. fuel bounds loop passes.
  function EvStmt(w: World, s: Stmt, st: State, fuel: nat): (r: Ended)
    ensures r.fuel <= fuel && st.stack <= r.st.stack
    decreases fuel, s, 2
  {
    match s
    case Block(body) =>
      var r := EvBlock(w, body, 0, st, fuel);
      if r.end == Unfinished then r else r.(st := PopStack(r.st, |st.stack|))
    case Eval(e) => Ended(Fell, EvWhole(w, e, st).st, fuel)
    case Return(inits) => Ended(Returning(EvFlags(w, inits, |inits|, st)), EvMulti(w, inits, st), fuel)
    case If(pre, kind, cond, thn, els) =>
      var c := EvWhole(w, cond, EvPre(w, pre, |pre|, st));
      if kind.StaticTrue? || (kind.Dynamic? && c.flag) then EvStmt(w, thn, c.st, fuel)
      else if els != Block([]) then EvStmt(w, els, c.st, fuel)
      else Ended(Fell, PopStack(c.st, |st.stack|), fuel)
    case While(_, _, _) =>
      var r := EvLoop(w, s, |st.stack|, st, fuel);
      if r.end == Fell then r.(st := PopStack(r.st, |st.stack|)) else r
    case Break => Ended(Broken, st, fuel)
    case Continue => Ended(Continuing, st, fuel)
    case Try(tried, _) => EvStmt(w, tried, st, fuel)
    case Finally(_) => Ended(Fell, st, fuel)
    case OnError(_) => Ended(Fell, st, fuel)
    case _ => Ended(Unsupported, st, fuel)
  }

  // The passes of a loop. After each, everything above the marker is destroyed,
  // and stays on the stack.
  function EvLoop(w: World, s: Stmt, marker: nat, st: State, fuel: nat): (r: Ended)
    requires s.While? && marker <= |st.stack|
    ensures r.fuel <= fuel && st.stack <= r.st.stack
    decreases fuel, s, 1
  {
    if fuel == 0 then Ended(Unfinished, st, 0)
    else
      var c := EvWhole(w, s.cond, EvPre(w, s.pre, |s.pre|, st));
      if !c.flag then Ended(Fell, c.st, fuel - 1)
      else
        var r := EvStmt(w, s.loop, c.st, fuel - 1);
        match r.end
        case Broken => r.(end := Fell)
        case Fell => EvLoop(w, s, marker, r.st.(t := DropAll(r.st.stack[marker..], r.st.t)), r.fuel)
        case Continuing => EvLoop(w, s, marker, r.st.(t := DropAll(r.st.stack[marker..], r.st.t)), r.fuel)
        case _ => r
  }

  function EvBlock(w: World, ss: seq<Stmt>, i: nat, st: State, fuel: nat): (r: Ended)
    requires i <= |ss|
    ensures r.fuel <= fuel && st.stack <= r.st.stack
    decreases fuel, ss, |ss| - i
  {
    if i == |ss| then Ended(Fell, st, fuel)
    else if ss[i].Var? then EvBlock(w, ss, i + 1, EvBinding(w, ss[i].inits, st), fuel)
    else
      var r := EvStmt(w, ss[i], st, fuel);
      if r.end != Fell then r else EvBlock(w, ss, i + 1, r.st, r.fuel)
  }

  // ----- the evaluator, in place --------------------------------------------

  class Interpreter {
    const world: World
    var trace: Trace
    var stackEValues: seq<Slot>

    function Now(): State
      reads this
    {
      State(trace, stackEValues)
    }

    constructor (w: World)
      ensures world == w && Now() == State([], [])
    {
      world := w;
      trace, stackEValues := [], [];
    }

    method AllocValue(v: Slot)
      modifies this
      ensures Now() == PushValue(old(Now()), v)
    {
      stackEValues := stackEValues + [v];
    }

    // Something is stored or called.
    method Record(e: Event)
      modifies this`trace
      ensures Now() == Happens(old(Now()), e)
    {
      trace := trace + [e];
    }

    // evalDestroyStack: nothing is popped.
    method DestroyStack(marker: nat)
      requires marker <= |stackEValues|
      modifies this`trace
      ensures trace == DropAll(stackEValues[marker..], old(trace))
    {
      var i := |stackEValues|;
      assert stackEValues[marker..i] == stackEValues[marker..];
      while marker < i
        invariant marker <= i <= |stackEValues|
        invariant DropAll(stackEValues[marker..i], trace) == DropAll(stackEValues[marker..], old(trace))
      {
        ghost var part := stackEValues[marker..i];
        i := i - 1;
        assert part[|part| - 1] == stackEValues[i] && part[..|part| - 1] == stackEValues[marker..i];
        trace := Drop(stackEValues[i], trace);
      }
    }

    method DestroyAndPopStack(marker: nat)
      requires marker <= |stackEValues|
      modifies this
      ensures Now() == PopStack(old(Now()), marker)
    {
      assert stackEValues[..|stackEValues|] == stackEValues;
      while marker < |stackEValues|
        invariant marker <= |stackEValues| <= |old(stackEValues)|
        invariant stackEValues == old(stackEValues)[..|stackEValues|]
        invariant DropAll(stackEValues[marker..], trace) == DropAll(old(stackEValues)[marker..], old(trace))
        decreases |stackEValues|
      {
        var n := |stackEValues| - 1;
        assert stackEValues[marker..][..n - marker] == stackEValues[..n][marker..];
        trace := Drop(stackEValues[n], trace);
        stackEValues := stackEValues[..n];
      }
    }

    // evalExpr
    method ExprInto(e: Expr, out: Slot) returns (flag: bool)
      modifies this
      ensures Flagged(Now(), flag) == EvInto(world, e, out, old(Now()))
      decreases e, 0
    {
      match e
      case Lit(b, _) =>
        flag := b;
        Record(Stored(out, flag));
      case Call(f, args, _, _) =>
        var i := 0;
        while i < |args|
          invariant i <= |args| && Now() == EvArgs(world, args, i, old(Now()))
        {
          var _ := ExprAsRef(args[i]);
          i := i + 1;
        }
        var reply := Answer(world, trace, f, Homes(args));
        Record(Called(f, Homes(args), out, reply.flag, reply.threw, true));
        flag := reply.flag;
      case And(l, r, _) =>
        flag := ExprAsRef(l);
        if flag { flag := ExprAsRef(r); }
        Record(Stored(out, flag));
      case Or(l, r, _) =>
        flag := ExprAsRef(l);
        if !flag { flag := ExprAsRef(r); }
        Record(Stored(out, flag));
    }

    method ExprAsRef(e: Expr) returns (flag: bool)
      modifies this
      ensures Flagged(Now(), flag) == EvRef(world, e, old(Now()))
      decreases e, 1
    {
      AllocValue(Home(e));
      flag := ExprInto(e, Home(e));
    }

    method WholeExpr(e: Expr) returns (flag: bool)
      modifies this
      ensures Flagged(Now(), flag) == EvWhole(world, e, old(Now()))
    {
      var marker := |stackEValues|;
      flag := ExprAsRef(e);
      DestroyAndPopStack(marker);
    }

    method MultiInto(inits: seq<Init>) returns (values: seq<bool>)
      modifies this
      ensures Now() == EvMulti(world, inits, old(Now())) && values == EvFlags(world, inits, |inits|, old(Now()))
    {
      var marker := |stackEValues|;
      values := [];
      var i := 0;
      while i < |inits|
        invariant i <= |inits| && Now() == EvInits(world, inits, i, old(Now()))
        invariant values == EvFlags(world, inits, i, old(Now()))
      {
        var flag := ExprInto(inits[i].e, inits[i].out);
        values := values + [flag];
        i := i + 1;
      }
      DestroyAndPopStack(marker);
    }

    // evalBinding of a var
    method Binding(inits: seq<Init>)
      modifies this
      ensures Now() == EvBinding(world, inits, old(Now()))
    {
      stackEValues := stackEValues + Slots(inits);
      var _ := MultiInto(inits);
    }

    // evalStatementExpressionStatements
    method ConditionStatements(pre: seq<Stmt>)
      modifies this
      ensures Now() == EvPre(world, pre, |pre|, old(Now()))
    {
      var i := 0;
      while i < |pre|
        invariant i <= |pre| && Now() == EvPre(world, pre, i, old(Now()))
      {
        match pre[i] {
          case Var(inits) => Binding(inits);
          case Eval(e) => var _ := WholeExpr(e);
          case _ =>
        }
        i := i + 1;
      }
    }

    // evalStatement
    method Statement(s: Stmt, fuel: nat) returns (end: End, left: nat)
      modifies this
      ensures Ended(end, Now(), left) == EvStmt(world, s, old(Now()), fuel)
      decreases fuel, s, 2
    {
      end, left := Fell, fuel;
      match s
      case Block(body) =>
        var blockMarker := |stackEValues|;
        end, left := BlockItems(body, fuel);
        if end != Unfinished { DestroyAndPopStack(blockMarker); }
      case Eval(e) => var _ := WholeExpr(e);
      case Return(inits) =>
        var values := MultiInto(inits);
        end := Returning(values);
      case If(pre, kind, cond, thn, els) =>
        var scopeMarker := |stackEValues|;
        ConditionStatements(pre);
        var flag := WholeExpr(cond);
        if kind.StaticTrue? || (kind.Dynamic? && flag) {
          end, left := Statement(thn, fuel);
        } else if els != Block([]) {
          end, left := Statement(els, fuel);
        } else {
          DestroyAndPopStack(scopeMarker);
        }
      case While(_, _, _) =>
        var scopeMarker := |stackEValues|;
        end, left := Loop(s, scopeMarker, fuel);
        if end == Fell { DestroyAndPopStack(scopeMarker); }
      case Break => end := Broken;
      case Continue => end := Continuing;
      case Try(tried, _) => end, left := Statement(tried, fuel);
      case Finally(_) =>
      case OnError(_) =>
      case _ => end := Unsupported;
    }

    method BlockItems(ss: seq<Stmt>, fuel: nat) returns (end: End, left: nat)
      modifies this
      ensures Ended(end, Now(), left) == EvBlock(world, ss, 0, old(Now()), fuel)
      decreases fuel, ss, |ss| + 1
    {
      left := fuel;
      var pos := 0;
      while pos < |ss|
        invariant pos <= |ss| && left <= fuel
        invariant EvBlock(world, ss, pos, Now(), left) == EvBlock(world, ss, 0, old(Now()), fuel)
        decreases |ss| - pos
      {
        if ss[pos].Var? {
          Binding(ss[pos].inits);
        } else {
          end, left := Statement(ss[pos], left);
          if end != Fell { return; }
        }
        pos := pos + 1;
      }
      end := Fell;
    }

    // The passes of a loop.
    method Loop(s: Stmt, scopeMarker: nat, fuel: nat) returns (end: End, left: nat)
      requires s.While? && scopeMarker <= |stackEValues|
      modifies this
      ensures Ended(end, Now(), left) == EvLoop(world, s, scopeMarker, old(Now()), fuel)
      decreases fuel, s, 1
    {
      left := fuel;
      while left > 0
        invariant left <= fuel && scopeMarker <= |stackEValues|
        invariant EvLoop(world, s, scopeMarker, Now(), left) == EvLoop(world, s, scopeMarker, old(Now()), fuel)
        decreases left
      {
        left := left - 1;
        ConditionStatements(s.pre);
        var flag := WholeExpr(s.cond);
        if !flag { return Fell, left; }
        end, left := Statement(s.loop, left);
        if end == Broken { return Fell, left; }
        if end != Fell && end != Continuing { return; }
        DestroyStack(scopeMarker);
      }
      end := Unfinished;
    }
  }
}
