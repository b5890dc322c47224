// The statement language that codegenStatement compiles, with primitive
// computations kept abstract: a call is a name applied to operands.
module Syntax {

  // Storage for one value: a temporary of an expression, a local variable, or
  // an output the caller owns. A `prim` slot has a primitive type, for which
  // codegenValueDestroy emits nothing.
  datatype Kind = Temp | Local | Result
  datatype Slot = Slot(kind: Kind, id: nat, prim: bool)

  // What a call invokes; ThrowValue is operator_throwValue, which always throws.
  datatype Fn = User(name: nat) | ThrowValue

  datatype Expr =
    | Lit(b: bool, id: nat)
    | Call(f: Fn, args: seq<Expr>, id: nat, prim: bool)
    | And(l: Expr, r: Expr, id: nat)
    | Or(l: Expr, r: Expr, id: nat)

  // One output of a binding or a return with the expression that constructs it.
  datatype Init = Init(out: Slot, e: Expr)

  // typeBoolKind of an if condition.
  datatype CondKind = Dynamic | StaticTrue | StaticFalse

  // An absent else branch is the empty block, and one written out as an empty
  // block a block with an empty block in it: both emit the same code, but the
  // evaluator tells them apart. A cleanup body is kept as the items of its block.
  datatype Stmt =
    | Block(body: seq<Stmt>)
    | Label(l: string)
    | Goto(l: string)
    | Var(inits: seq<Init>)
    | Eval(e: Expr)
    | Return(inits: seq<Init>)
    | Throw(args: seq<Expr>)
    | If(pre: seq<Stmt>, kind: CondKind, cond: Expr, thn: Stmt, els: Stmt)
    | While(pre: seq<Stmt>, cond: Expr, loop: Stmt)
    | Break
    | Continue
    | Try(tried: Stmt, handler: Stmt)
    | Finally(cleanup: seq<Stmt>)
    | OnError(cleanup: seq<Stmt>)
    | Unreachable

  // ValueStackEntry.
  datatype Entry =
    | Value(v: Slot)
    | Final(body: seq<Stmt>)
    | Error(body: seq<Stmt>)

  // The slot an expression is evaluated into when its caller supplies none.
  function Home(e: Expr): Slot {
    match e
    case Lit(_, id) => Slot(Temp, id, true)
    case Call(_, _, id, prim) => Slot(Temp, id, prim)
    case And(_, _, id) => Slot(Temp, id, true)
    case Or(_, _, id) => Slot(Temp, id, true)
  }

  function Homes(es: seq<Expr>): (vs: seq<Slot>)
    ensures |vs| == |es|
  {
    seq(|es|, i requires 0 <= i < |es| => Home(es[i]))
  }

  // What a block item leaves on the value stack until its block ends.
  function Pushes(s: Stmt): seq<Entry> {
    match s
    case Var(inits) => Outs(inits)
    case Finally(b) => [Final(b)]
    case OnError(b) => [Error(b)]
    case _ => []
  }

  function Slots(inits: seq<Init>): seq<Slot> {
    if inits == [] then [] else Slots(inits[..|inits| - 1]) + [inits[|inits| - 1].out]
  }

  function Values(vs: seq<Slot>): (es: seq<Entry>)
    ensures |es| == |vs|
  {
    seq(|vs|, i requires 0 <= i < |vs| => Value(vs[i]))
  }

  function Outs(inits: seq<Init>): seq<Entry> {
    Values(Slots(inits))
  }

  // The temporaries an expression leaves when evaluated into a given slot, or
  // as a reference to a slot of its own.
  function TempsInto(e: Expr): seq<Slot>
    decreases e, 0
  {
    match e
    case Lit(_, _) => []
    case Call(_, args, _, _) => TempsArgs(args, |args|)
    case And(l, _, _) => TempsRef(l)
    case Or(l, _, _) => TempsRef(l)
  }

  function TempsRef(e: Expr): seq<Slot>
    decreases e, 1
  {
    TempsInto(e) + [Home(e)]
  }

  function TempsArgs(args: seq<Expr>, n: nat): seq<Slot>
    requires n <= |args|
    decreases args, n
  {
    if n == 0 then [] else TempsArgs(args, n - 1) + TempsRef(args[n - 1])
  }

  // The entries owned by a block whose first i items have been executed.
  function Own(ss: seq<Stmt>, i: nat): seq<Entry>
    requires i <= |ss|
  {
    if i == 0 then [] else Own(ss, i - 1) + Pushes(ss[i - 1])
  }

  // Sizes, for termination of the semantics.

  function Size(s: Stmt): nat {
    match s
    case Block(body) => 1 + SizeAll(body)
    case If(pre, _, _, thn, els) => 1 + SizeAll(pre) + Size(thn) + Size(els)
    case While(pre, _, loop) => 1 + SizeAll(pre) + Size(loop)
    case Try(tried, handler) => 1 + Size(tried) + Size(handler)
    case Finally(b) => 3 + SizeAll(b)
    case OnError(b) => 3 + SizeAll(b)
    case _ => 1
  }

  function SizeAll(ss: seq<Stmt>): nat {
    if ss == [] then 1 else SizeAll(ss[..|ss| - 1]) + Size(ss[|ss| - 1])
  }

  function EntrySize(e: Entry): nat {
    match e
    case Value(_) => 0
    case Final(b) => 2 + SizeAll(b)
    case Error(b) => 2 + SizeAll(b)
  }

  function Weight(es: seq<Entry>): nat {
    if es == [] then 0
    else
      var rest, last := Weight(es[..|es| - 1]), EntrySize(es[|es| - 1]);
      if rest < last then last else rest
  }

  lemma SizeOfItem(ss: seq<Stmt>, i: nat)
    requires i < |ss|
    ensures Size(ss[i]) < SizeAll(ss)
  {
    if i < |ss| - 1 {
      SizeOfItem(ss[..|ss| - 1], i);
    } else {
      SizePositive(ss[..|ss| - 1]);
    }
  }

  lemma SizePositive(ss: seq<Stmt>)
    ensures SizeAll(ss) >= 1
  {
  }

  lemma WeightConcat(a: seq<Entry>, b: seq<Entry>)
    ensures Weight(a) <= Weight(a + b) && Weight(b) <= Weight(a + b)
    ensures Weight(a + b) == Weight(a) || Weight(a + b) == Weight(b)
  {
    if b == [] {
      assert a + b == a;
    } else {
      WeightConcat(a, b[..|b| - 1]);
      assert (a + b)[..|a + b| - 1] == a + b[..|b| - 1];
    }
  }

  lemma ValuesLight(vs: seq<Slot>)
    ensures Weight(Values(vs)) == 0
  {
    if vs != [] {
      ValuesLight(vs[..|vs| - 1]);
      assert Values(vs)[..|vs| - 1] == Values(vs[..|vs| - 1]);
    }
  }

  lemma PushesLight(s: Stmt)
    ensures Weight(Pushes(s)) < Size(s)
  {
    match s
    case Var(inits) => ValuesLight(Slots(inits));
    case Finally(b) => assert [Final(b)][..0] == [];
    case OnError(b) => assert [Error(b)][..0] == [];
    case _ =>
  }

  lemma NoWeight()
    ensures Weight([]) == 0
  {
  }

  lemma OwnLight(ss: seq<Stmt>, i: nat)
    requires i <= |ss|
    ensures Weight(Own(ss, i)) < SizeAll(ss)
  {
    hide Size, SizeAll, Weight, Pushes;
    SizePositive(ss);
    if i == 0 {
      NoWeight();
    } else {
      OwnLight(ss, i - 1);
      SizeOfItem(ss, i - 1);
      PushesLight(ss[i - 1]);
      WeightConcat(Own(ss, i - 1), Pushes(ss[i - 1]));
    }
  }

  // Labels. codegenCollectLabels registers the labels between one binding and
  // the next with the stack height found there.

  function SegmentStart(ss: seq<Stmt>, q: nat): (r: nat)
    requires q <= |ss|
    ensures r <= q
  {
    if q == 0 then 0
    else if ss[q - 1].Var? then q
    else SegmentStart(ss, q - 1)
  }

  // The position of label l if it has been collected when item i runs.
  function FindLabel(ss: seq<Stmt>, l: string, i: nat, from: nat := 0): (r: int)
    requires from <= |ss|
    ensures -1 <= r < |ss|
    ensures r >= 0 ==> ss[r] == Label(l) && SegmentStart(ss, r) <= i
    decreases |ss| - from
  {
    if from == |ss| then -1
    else if ss[from] == Label(l) && SegmentStart(ss, from) <= i then from
    else FindLabel(ss, l, i, from + 1)
  }

  function LabelsOf(s: Stmt): set<string> {
    match s
    case Label(l) => {l}
    case Block(body) => LabelsOfAll(body)
    case If(pre, _, _, thn, els) => LabelsOf(thn) + LabelsOf(els)
    case While(pre, _, loop) => LabelsOf(loop)
    case Try(tried, handler) => LabelsOf(tried) + LabelsOf(handler)
    case _ => {}
  }

  function LabelsOfAll(ss: seq<Stmt>): set<string> {
    if ss == [] then {} else LabelsOfAll(ss[..|ss| - 1]) + LabelsOf(ss[|ss| - 1])
  }

  // The labels of the block itself that a goto inside item i can name.
  function Visible(ss: seq<Stmt>, i: nat): set<string> {
    set q | 0 <= q < |ss| && ss[q].Label? && SegmentStart(ss, q) <= i :: ss[q].l
  }

  predicate Bare(s: Stmt) { s.Finally? || s.OnError? }

  // What the grammar puts in front of a condition.
  predicate Simple(pre: seq<Stmt>) {
    forall i :: 0 <= i < |pre| ==> pre[i].Var? || pre[i].Eval?
  }

  // Programs whose jumps are lexical and whose cleanup bodies run to their end:
  // a goto names a label of an enclosing block, labels are distinct, no
  // finally or onerror stands between a label and its collection point or alone
  // in a branch, and a cleanup body contains no return, label, goto, or break
  // out of itself.
  predicate WellFormed(s: Stmt, cleanup: bool, inLoop: bool, scope: set<string>)
    decreases s, 0
  {
    match s
    case Block(body) => WellFormedAll(body, |body|, cleanup, inLoop, scope)
    case Label(_) => !cleanup
    case Goto(l) => l in scope
    case Return(_) => !cleanup
    case If(pre, _, _, thn, els) =>
      && Simple(pre) && !Bare(thn) && !Bare(els) && LabelsOf(thn) !! LabelsOf(els)
      && WellFormed(thn, cleanup, inLoop, scope) && WellFormed(els, cleanup, inLoop, scope)
    case While(pre, _, loop) =>
      Simple(pre) && !Bare(loop) && WellFormed(loop, cleanup, true, scope)
    case Break => cleanup ==> inLoop
    case Continue => cleanup ==> inLoop
    case Try(tried, handler) =>
      && !Bare(tried) && !Bare(handler) && LabelsOf(tried) !! LabelsOf(handler)
      && WellFormed(tried, cleanup, inLoop, scope) && WellFormed(handler, cleanup, inLoop, scope)
    case Finally(b) => WellFormedAll(b, |b|, true, false, {})
    case OnError(b) => WellFormedAll(b, |b|, true, false, {})
    case _ => true
  }

  predicate WellFormedAll(ss: seq<Stmt>, n: nat, cleanup: bool, inLoop: bool, scope: set<string>)
    requires n <= |ss|
    decreases ss, n
  {
    n == 0 ||
    (&& WellFormedAll(ss, n - 1, cleanup, inLoop, scope)
     && WellFormed(ss[n - 1], cleanup, inLoop, scope + Visible(ss, n - 1))
     && LabelsOfAll(ss[..n - 1]) !! LabelsOf(ss[n - 1])
     && (ss[n - 1].Label? ==> forall j :: SegmentStart(ss, n - 1) <= j < n - 1 ==> !Bare(ss[j])))
  }
}
