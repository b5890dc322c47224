// The control-flow graphs the compiler emits and how they run.
module Cfg {
  import opened Syntax
  import opened Semantics

  datatype Instr =
    | ICall(f: Fn, args: seq<Slot>, out: Slot)             // a call whose result is tested
    | ICallUnchecked(f: Fn, args: seq<Slot>, out: Slot)    // a call whose result is ignored
    | IDestroy(v: Slot)
    | IStore(out: Slot, b: bool)
    | ICopy(out: Slot, from: Slot)
    | IBr(target: nat)
    | ICondBr(flag: Slot, yes: nat, no: nat)
    | IExcBr(normal: nat, landing: nat)          // branch on the last call's result
    | IUnreachable
    | IRet(exn: bool)                            // exn: the stored exception is returned

  type Code = map<nat, seq<Instr>>

  function At(code: Code, b: nat): seq<Instr> {
    if b in code then code[b] else []
  }

  datatype Config =
    | Running(b: nat, pc: nat, mem: Memory, threw: bool, t: Trace)
    | Finished(exn: bool, t: Trace, mem: Memory)
    | Wedged(t: Trace)

  // The next instruction, when something has happened.
  function After(c: Config, e: Event, threw: bool): Config
    requires c.Running?
  {
    Running(c.b, c.pc + 1, Write(c.mem, e), threw, c.t + [e])
  }

  // The effect of one instruction.
  function Do(w: World, c: Config, i: Instr): Config
    requires c.Running?
  {
    match i
    case ICall(f, args, out) =>
      var reply := Answer(w, c.t, f, args);
      After(c, Called(f, args, out, reply.flag, reply.threw, true), reply.threw)
    case ICallUnchecked(f, args, out) =>
      var reply := Answer(w, c.t, f, args);
      After(c, Called(f, args, out, reply.flag, reply.threw, false), c.threw)
    case IDestroy(v) => After(c, Destroyed(v), c.threw)
    case IStore(out, b) => After(c, Stored(out, b), c.threw)
    case ICopy(out, from) => After(c, Stored(out, Load(c.mem, from)), c.threw)
    case IBr(b) => c.(b := b, pc := 0)
    case ICondBr(flag, yes, no) => c.(b := if Load(c.mem, flag) then yes else no, pc := 0)
    case IExcBr(normal, landing) => c.(b := if c.threw then landing else normal, pc := 0)
    case IUnreachable => Wedged(c.t)
    case IRet(exn) => Finished(exn, c.t, c.mem)
  }

  function Step(g: Code, w: World, c: Config): Config {
    if !c.Running? then c
    else if c.pc >= |At(g, c.b)| then Wedged(c.t)
    else Do(w, c, At(g, c.b)[c.pc])
  }

  function Steps(g: Code, w: World, c: Config, k: nat): Config
    decreases k
  {
    if k == 0 then c else Steps(g, w, Step(g, w, c), k - 1)
  }

  // c' is reached from c in at least n steps.
  ghost predicate Reaches(g: Code, w: World, c: Config, c': Config, n: int) {
    exists k: nat :: k >= n && Steps(g, w, c, k) == c'
  }

  lemma {:induction false} StepsAdd(g: Code, w: World, c: Config, j: nat, k: nat)
    ensures Steps(g, w, c, j + k) == Steps(g, w, Steps(g, w, c, j), k)
    decreases j
  {
    if j > 0 {
      StepsAdd(g, w, Step(g, w, c), j - 1, k);
    }
  }

  lemma Chain(g: Code, w: World, c0: Config, c1: Config, c2: Config, m: int, n: int)
    requires Reaches(g, w, c0, c1, m) && Reaches(g, w, c1, c2, n)
    ensures Reaches(g, w, c0, c2, m + n)
  {
    var j: nat :| j >= m && Steps(g, w, c0, j) == c1;
    var k: nat :| k >= n && Steps(g, w, c1, k) == c2;
    StepsAdd(g, w, c0, j, k);
    assert Steps(g, w, c0, j + k) == c2;
  }

  lemma OneStep(g: Code, w: World, c: Config)
    ensures Reaches(g, w, c, Step(g, w, c), 1)
  {
    assert Steps(g, w, c, 1) == Step(g, w, c) by {
      assert Steps(g, w, Step(g, w, c), 0) == Step(g, w, c);
    }
  }

  lemma NoStep(g: Code, w: World, c: Config)
    ensures Reaches(g, w, c, c, 0)
  {
    assert Steps(g, w, c, 0) == c;
  }

  // A run that has stopped stays stopped.
  lemma {:induction false} StoppedStays(g: Code, w: World, c: Config, j: nat, k: nat)
    requires j <= k && !Steps(g, w, c, j).Running?
    ensures Steps(g, w, c, k) == Steps(g, w, c, j)
  {
    if k > j {
      StoppedStays(g, w, c, j, k - 1);
      StepsAdd(g, w, c, k - 1, 1);
      var d := Steps(g, w, c, k - 1);
      assert Steps(g, w, d, 1) == Steps(g, w, Step(g, w, d), 0);
    }
  }

  // Events are only ever appended.
  lemma {:induction false} TraceGrows(g: Code, w: World, c: Config, k: nat)
    ensures c.t <= Steps(g, w, c, k).t
    decreases k
  {
    if k > 0 {
      TraceGrows(g, w, Step(g, w, c), k - 1);
    }
  }

  // Memory is what the events say was stored.
  predicate Remembers(c: Config) {
    !c.Wedged? ==> c.mem == Replay(c.t)
  }

  lemma ReplayNext(t: Trace, e: Event)
    ensures Replay(t + [e]) == Write(Replay(t), e)
  {
    assert (t + [e])[..|t + [e]| - 1] == t;
  }

  lemma StepRemembers(g: Code, w: World, c: Config)
    requires Remembers(c)
    ensures Remembers(Step(g, w, c))
  {
    hide Replay;
    if c.Running? && c.pc < |At(g, c.b)| {
      match At(g, c.b)[c.pc]
      case ICall(f, args, out) =>
        var reply := Answer(w, c.t, f, args);
        ReplayNext(c.t, Called(f, args, out, reply.flag, reply.threw, true));
      case ICallUnchecked(f, args, out) =>
        var reply := Answer(w, c.t, f, args);
        ReplayNext(c.t, Called(f, args, out, reply.flag, reply.threw, false));
      case IDestroy(v) => ReplayNext(c.t, Destroyed(v));
      case IStore(out, b) => ReplayNext(c.t, Stored(out, b));
      case ICopy(out, from) => ReplayNext(c.t, Stored(out, Load(c.mem, from)));
      case _ =>
    }
  }

  lemma {:induction false} StepsRemember(g: Code, w: World, c: Config, k: nat)
    requires Remembers(c)
    ensures Remembers(Steps(g, w, c, k))
    decreases k
  {
    if k > 0 {
      StepRemembers(g, w, c);
      StepsRemember(g, w, Step(g, w, c), k - 1);
    }
  }
}
