// What the evaluator passes over and what it refuses: finally and onerror
// statements might as well not be there, and a few statements stop it.
module EvaluatorSkips {
  import opened Syntax
  import opened Semantics
  import opened Evaluator
  import opened Agreement

  // ----- without cleanup statements -----------------------------------------

  predicate Skipped(s: Stmt) { s.Finally? || s.OnError? }

  // s without its finally and onerror statements. An else part of nothing else
  // becomes one that is written out and empty, not an absent one.
  function Erase(s: Stmt): Stmt
    decreases s, 0
  {
    match s
    case Block(body) => Block(EraseFrom(body, 0))
    case If(pre, kind, cond, thn, els) =>
      If(pre, kind, cond, Erase(thn), if els != Block([]) && Erase(els) == Block([]) then Block([Block([])]) else Erase(els))
    case While(pre, cond, loop) => While(pre, cond, Erase(loop))
    case Try(tried, handler) => Try(Erase(tried), Erase(handler))
    case Finally(_) => Block([])
    case OnError(_) => Block([])
    case _ => s
  }

  function EraseFrom(ss: seq<Stmt>, i: nat): seq<Stmt>
    requires i <= |ss|
    decreases ss, |ss| - i
  {
    if i == |ss| then [] else (if Skipped(ss[i]) then [] else [Erase(ss[i])]) + EraseFrom(ss, i + 1)
  }

  // A block from item k on is the block of what is left.
  lemma {:induction false} BlockTail(w: World, ss: seq<Stmt>, k: nat, i: nat, st: State, fuel: nat)
    requires k + i <= |ss|
    ensures EvBlock(w, ss[k..], i, st, fuel) == EvBlock(w, ss, k + i, st, fuel)
    decreases |ss| - k - i
  {
    hide EvStmt, EvBinding;
    if k + i < |ss| {
      var s := ss[k + i];
      assert ss[k..][i] == s;
      if s.Var? {
        BlockTail(w, ss, k, i + 1, EvBinding(w, s.inits, st), fuel);
      } else {
        var r := EvStmt(w, s, st, fuel);
        if r.end == Fell { BlockTail(w, ss, k, i + 1, r.st, r.fuel); }
      }
    }
  }

  // The first item, and the block of the others.
  lemma BlockFirst(w: World, x: Stmt, rest: seq<Stmt>, st: State, fuel: nat)
    ensures var v := EvBlock(w, [x] + rest, 0, st, fuel);
            if x.Var? then v == EvBlock(w, rest, 0, EvBinding(w, x.inits, st), fuel)
            else
              var r := EvStmt(w, x, st, fuel);
              v == if r.end != Fell then r else EvBlock(w, rest, 0, r.st, r.fuel)
  {
    hide EvStmt, EvBinding;
    assert ([x] + rest)[1..] == rest;
    if x.Var? {
      BlockTail(w, [x] + rest, 1, 0, EvBinding(w, x.inits, st), fuel);
    } else {
      var r := EvStmt(w, x, st, fuel);
      if r.end == Fell { BlockTail(w, [x] + rest, 1, 0, r.st, r.fuel); }
    }
  }

  lemma EmptyBlock(w: World, st: State, fuel: nat)
    ensures EvStmt(w, Block([]), st, fuel) == Ended(Fell, st, fuel) == EvStmt(w, Block([Block([])]), st, fuel)
  {
    assert st.stack[|st.stack|..] == [] && st.stack[..|st.stack|] == st.stack;
    assert EvBlock(w, [], 0, st, fuel) == Ended(Fell, st, fuel);
    var ss := [Block([])];
    assert EvBlock(w, ss, 1, st, fuel) == Ended(Fell, st, fuel);
    assert EvBlock(w, ss, 0, st, fuel) == Ended(Fell, st, fuel);
  }

  // The evaluator does the same with and without them.
  lemma {:induction false} ErasedAlike(w: World, s: Stmt, st: State, fuel: nat)
    ensures EvStmt(w, Erase(s), st, fuel) == EvStmt(w, s, st, fuel)
    decreases fuel, s, 2
  {
    hide EvWhole, EvPre, EvMulti, EvFlags, PopStack;
    match s
    case Block(body) => BlockErased(w, body, 0, st, fuel);
    case If(pre, kind, cond, thn, els) =>
      var c := EvWhole(w, cond, EvPre(w, pre, |pre|, st));
      EmptyBlock(w, c.st, fuel);
      if kind.StaticTrue? || (kind.Dynamic? && c.flag) { ErasedAlike(w, thn, c.st, fuel); } else { ErasedAlike(w, els, c.st, fuel); }
    case While(_, _, _) => LoopErased(w, s, |st.stack|, st, fuel);
    case Try(tried, _) => ErasedAlike(w, tried, st, fuel);
    case Finally(_) => EmptyBlock(w, st, fuel);
    case OnError(_) => EmptyBlock(w, st, fuel);
    case _ =>
  }

  lemma {:induction false} BlockErased(w: World, ss: seq<Stmt>, i: nat, st: State, fuel: nat)
    requires i <= |ss|
    ensures EvBlock(w, EraseFrom(ss, i), 0, st, fuel) == EvBlock(w, ss, i, st, fuel)
    decreases fuel, ss, |ss| - i
  {
    hide EvBinding, Erase, EvLoop, EvWhole, EvPre, PopStack;
    if i < |ss| {
      var s := ss[i];
      if Skipped(s) {
        assert EraseFrom(ss, i) == [] + EraseFrom(ss, i + 1) == EraseFrom(ss, i + 1);
        BlockErased(w, ss, i + 1, st, fuel);
      } else {
        assert Erase(s).Var? <==> s.Var? by { ErasedKind(s); }
        BlockFirst(w, Erase(s), EraseFrom(ss, i + 1), st, fuel);
        if s.Var? {
          ErasedKind(s);
          BlockErased(w, ss, i + 1, EvBinding(w, s.inits, st), fuel);
        } else {
          ErasedAlike(w, s, st, fuel);
          var r := EvStmt(w, s, st, fuel);
          if r.end == Fell { BlockErased(w, ss, i + 1, r.st, r.fuel); }
        }
      }
    }
  }

  lemma ErasedKind(s: Stmt)
    ensures if s.Var? then Erase(s) == s else !Erase(s).Var?
  {
  }

  lemma {:induction false} LoopErased(w: World, s: Stmt, marker: nat, st: State, fuel: nat)
    requires s.While? && marker <= |st.stack|
    ensures EvLoop(w, Erase(s), marker, st, fuel) == EvLoop(w, s, marker, st, fuel)
    decreases fuel, s, 1
  {
    hide EvWhole, EvPre, EvStmt;
    if fuel > 0 {
      var c := EvWhole(w, s.cond, EvPre(w, s.pre, |s.pre|, st));
      if c.flag {
        ErasedAlike(w, s.loop, c.st, fuel - 1);
        var r := EvStmt(w, s.loop, c.st, fuel - 1);
        if r.end == Fell || r.end == Continuing {
          LoopErased(w, s, marker, r.st.(t := DropAll(r.st.stack[marker..], r.st.t)), r.fuel);
        }
      }
    }
  }

  // So it does the work of the program without them, with the same end and the
  // same values returned.
  lemma CleanupSkipped(w: World, s: Stmt, st: State, t: Trace, fuel: nat)
    requires Quiet(w) && Blind(w) && Plain(Erase(s)) && Work(st.t) == Work(t)
    ensures Same(EvStmt(w, s, st, fuel), Exec(w, Erase(s), t, true, fuel))
  {
    hide Quiet, Blind, Plain, Same, EvStmt, Exec, Work, Erase;
    ErasedAlike(w, s, st, fuel);
    StmtAgrees(w, Erase(s), st, t, fuel);
  }

  // ----- what stops it ------------------------------------------------------

  // Statements the evaluator does not run where they stand: labels and gotos are
  // not modelled, throw and unreachable are errors, and so is a binding that is
  // no item of a block.
  predicate Refused(s: Stmt) {
    s.Label? || s.Goto? || s.Throw? || s.Unreachable? || s.Var?
  }

  // A run of s reaches one.
  predicate Meets(w: World, s: Stmt, st: State, fuel: nat)
    decreases fuel, s, 2
  {
    match s
    case Block(body) => MeetsFrom(w, body, 0, st, fuel)
    case If(pre, kind, cond, thn, els) =>
      var c := EvWhole(w, cond, EvPre(w, pre, |pre|, st));
      Meets(w, if kind.StaticTrue? || (kind.Dynamic? && c.flag) then thn else els, c.st, fuel)
    case While(_, _, _) => LoopMeets(w, s, |st.stack|, st, fuel)
    case Try(tried, _) => Meets(w, tried, st, fuel)
    case _ => Refused(s)
  }

  predicate LoopMeets(w: World, s: Stmt, marker: nat, st: State, fuel: nat)
    requires s.While? && marker <= |st.stack|
    decreases fuel, s, 1
  {
    fuel > 0 &&
    var c := EvWhole(w, s.cond, EvPre(w, s.pre, |s.pre|, st));
    c.flag &&
    var r := EvStmt(w, s.loop, c.st, fuel - 1);
    Meets(w, s.loop, c.st, fuel - 1)
    || ((r.end == Fell || r.end == Continuing) && LoopMeets(w, s, marker, r.st.(t := DropAll(r.st.stack[marker..], r.st.t)), r.fuel))
  }

  predicate MeetsFrom(w: World, ss: seq<Stmt>, i: nat, st: State, fuel: nat)
    requires i <= |ss|
    decreases fuel, ss, |ss| - i
  {
    i < |ss| &&
    if ss[i].Var? then MeetsFrom(w, ss, i + 1, EvBinding(w, ss[i].inits, st), fuel)
    else
      var r := EvStmt(w, ss[i], st, fuel);
      Meets(w, ss[i], st, fuel) || (r.end == Fell && MeetsFrom(w, ss, i + 1, r.st, r.fuel))
  }

  // The evaluator gives up if and only if it reaches one.
  lemma {:induction false} UnsupportedIff(w: World, s: Stmt, st: State, fuel: nat)
    ensures EvStmt(w, s, st, fuel).end == Unsupported <==> Meets(w, s, st, fuel)
    decreases fuel, s, 2
  {
    hide EvWhole, EvPre, EvMulti, EvFlags, PopStack;
    match s
    case Block(body) => BlockUnsupported(w, body, 0, st, fuel);
    case If(pre, kind, cond, thn, els) =>
      var c := EvWhole(w, cond, EvPre(w, pre, |pre|, st));
      EmptyBlock(w, c.st, fuel);
      UnsupportedIff(w, if kind.StaticTrue? || (kind.Dynamic? && c.flag) then thn else els, c.st, fuel);
    case While(_, _, _) => LoopUnsupported(w, s, |st.stack|, st, fuel);
    case Try(tried, _) => UnsupportedIff(w, tried, st, fuel);
    case _ =>
  }

  lemma {:induction false} LoopUnsupported(w: World, s: Stmt, marker: nat, st: State, fuel: nat)
    requires s.While? && marker <= |st.stack|
    ensures EvLoop(w, s, marker, st, fuel).end == Unsupported <==> LoopMeets(w, s, marker, st, fuel)
    decreases fuel, s, 1
  {
    hide EvWhole, EvPre, EvStmt, Meets;
    if fuel > 0 {
      var c := EvWhole(w, s.cond, EvPre(w, s.pre, |s.pre|, st));
      if c.flag {
        UnsupportedIff(w, s.loop, c.st, fuel - 1);
        var r := EvStmt(w, s.loop, c.st, fuel - 1);
        if r.end == Fell || r.end == Continuing {
          LoopUnsupported(w, s, marker, r.st.(t := DropAll(r.st.stack[marker..], r.st.t)), r.fuel);
        }
      }
    }
  }

  lemma {:induction false} BlockUnsupported(w: World, ss: seq<Stmt>, i: nat, st: State, fuel: nat)
    requires i <= |ss|
    ensures EvBlock(w, ss, i, st, fuel).end == Unsupported <==> MeetsFrom(w, ss, i, st, fuel)
    decreases fuel, ss, |ss| - i
  {
    hide EvBinding, EvStmt, Meets;
    if i < |ss| {
      if ss[i].Var? {
        BlockUnsupported(w, ss, i + 1, EvBinding(w, ss[i].inits, st), fuel);
      } else {
        UnsupportedIff(w, ss[i], st, fuel);
        var r := EvStmt(w, ss[i], st, fuel);
        if r.end == Fell { BlockUnsupported(w, ss, i + 1, r.st, r.fuel); }
      }
    }
  }

  // The text has one: handlers do not count, bindings in blocks do not either.
  predicate Holds(s: Stmt)
    decreases s, 0
  {
    match s
    case Block(body) => exists i :: 0 <= i < |body| && !body[i].Var? && Holds(body[i])
    case If(_, _, _, thn, els) => Holds(thn) || Holds(els)
    case While(_, _, loop) => Holds(loop)
    case Try(tried, _) => Holds(tried)
    case _ => Refused(s)
  }

  // Without one in the text no run gives up.
  lemma {:induction false} MeetsHeld(w: World, s: Stmt, st: State, fuel: nat)
    requires Meets(w, s, st, fuel)
    ensures Holds(s)
    decreases fuel, s, 2
  {
    hide EvWhole, EvPre;
    match s
    case Block(body) => MeetsHeldFrom(w, body, 0, st, fuel);
    case If(pre, kind, cond, thn, els) =>
      var c := EvWhole(w, cond, EvPre(w, pre, |pre|, st));
      MeetsHeld(w, if kind.StaticTrue? || (kind.Dynamic? && c.flag) then thn else els, c.st, fuel);
    case While(_, _, _) => LoopMeetsHeld(w, s, |st.stack|, st, fuel);
    case Try(tried, _) => MeetsHeld(w, tried, st, fuel);
    case _ =>
  }

  lemma {:induction false} LoopMeetsHeld(w: World, s: Stmt, marker: nat, st: State, fuel: nat)
    requires s.While? && marker <= |st.stack| && LoopMeets(w, s, marker, st, fuel)
    ensures Holds(s.loop)
    decreases fuel, s, 1
  {
    hide EvWhole, EvPre, EvStmt, Meets, Holds;
    var c := EvWhole(w, s.cond, EvPre(w, s.pre, |s.pre|, st));
    if Meets(w, s.loop, c.st, fuel - 1) {
      MeetsHeld(w, s.loop, c.st, fuel - 1);
    } else {
      var r := EvStmt(w, s.loop, c.st, fuel - 1);
      LoopMeetsHeld(w, s, marker, r.st.(t := DropAll(r.st.stack[marker..], r.st.t)), r.fuel);
    }
  }

  lemma {:induction false} MeetsHeldFrom(w: World, ss: seq<Stmt>, i: nat, st: State, fuel: nat)
    requires i <= |ss| && MeetsFrom(w, ss, i, st, fuel)
    ensures exists j :: 0 <= j < |ss| && !ss[j].Var? && Holds(ss[j])
    decreases fuel, ss, |ss| - i
  {
    hide EvBinding, EvStmt, Meets, Holds;
    if ss[i].Var? {
      MeetsHeldFrom(w, ss, i + 1, EvBinding(w, ss[i].inits, st), fuel);
    } else if Meets(w, ss[i], st, fuel) {
      MeetsHeld(w, ss[i], st, fuel);
    } else {
      var r := EvStmt(w, ss[i], st, fuel);
      MeetsHeldFrom(w, ss, i + 1, r.st, r.fuel);
    }
  }
}
