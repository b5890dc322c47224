// The chains of ifs that switch statements and catch blocks are turned into, by
// patching the else part of the last if.
module Desugar {
  import opened Wrappers

  // A body is named by the case or catch it belongs to.
  datatype Leaf = Default | CatchAny(k: nat) | Rethrow | Nothing

  // The chain as a value: the if of case or catch k, and its else part.
  datatype Chain = If(k: nat, rest: Chain) | End(leaf: Leaf)

  // ----- running a chain ----------------------------------------------------

  // What is run, after which tests.
  datatype Outcome = Outcome(tested: seq<nat>, ran: Taken)
  datatype Taken = Body(k: nat) | Leaf(leaf: Leaf)

  function Run(c: Chain, holds: nat -> bool): Outcome {
    match c
    case End(leaf) => Outcome([], Leaf(leaf))
    case If(k, rest) =>
      if holds(k) then Outcome([k], Body(k))
      else
        var r := Run(rest, holds);
        Outcome([k] + r.tested, r.ran)
  }

  // The ifs of ks, one behind the other, and what follows them.
  function Link(ks: seq<nat>, leaf: Leaf): Chain {
    if ks == [] then End(leaf) else If(ks[0], Link(ks[1..], leaf))
  }

  // The first k that holds, or -1.
  function First(ks: seq<nat>, holds: nat -> bool): (i: int)
    ensures -1 <= i < |ks|
    ensures i >= 0 ==> holds(ks[i])
    ensures forall j :: 0 <= j < (if i < 0 then |ks| else i) ==> !holds(ks[j])
  {
    if ks == [] then -1
    else if holds(ks[0]) then 0
    else
      var i := First(ks[1..], holds);
      if i < 0 then -1 else i + 1
  }

  // The body of the first match is run, else what ends the chain; tests are made
  // in order up to the first match only.
  lemma {:induction false} RunsFirst(ks: seq<nat>, leaf: Leaf, holds: nat -> bool)
    ensures var i := First(ks, holds);
            Run(Link(ks, leaf), holds) == if i < 0 then Outcome(ks, Leaf(leaf)) else Outcome(ks[..i + 1], Body(ks[i]))
  {
    if ks != [] && !holds(ks[0]) {
      RunsFirst(ks[1..], leaf, holds);
      assert ks == [ks[0]] + ks[1..];
      var i := First(ks[1..], holds);
      if i >= 0 { assert ks[..i + 2] == [ks[0]] + ks[1..][..i + 1]; }
    }
  }

  // ----- switch -------------------------------------------------------------

  // n cases, tested in source order.
  function Upto(n: nat): (ks: seq<nat>)
    ensures |ks| == n && forall i :: 0 <= i < n ==> ks[i] == i
  {
    if n == 0 then [] else Upto(n - 1) + [n - 1]
  }

  // Of n bodies the first match is run, else the leaf; the tests are those of
  // the bodies up to the match, in order.
  predicate FirstOf(r: Outcome, n: nat, leaf: Leaf, holds: nat -> bool) {
    match r.ran
    case Body(k) => k < n && holds(k) && (forall j :: 0 <= j < k ==> !holds(j)) && r.tested == Upto(k + 1)
    case Leaf(l) => l == leaf && (forall j :: 0 <= j < n ==> !holds(j)) && r.tested == Upto(n)
  }

  lemma LinkRuns(n: nat, leaf: Leaf, holds: nat -> bool)
    ensures FirstOf(Run(Link(Upto(n), leaf), holds), n, leaf, holds)
  {
    RunsFirst(Upto(n), leaf, holds);
    var i := First(Upto(n), holds);
    forall j | 0 <= j < (if i < 0 then n else i) ensures !holds(j) { assert Upto(n)[j] == j; }
    if i >= 0 { UptoPrefix(n, i + 1); }
  }

  // A switch runs the body of its first matching case, else its default.
  lemma SwitchRuns(n: nat, hasDefault: bool, holds: nat -> bool)
    ensures var leaf := if hasDefault then Default else Nothing;
            FirstOf(Run(Link(Upto(n), leaf), holds), n, leaf, holds)
  {
    LinkRuns(n, if hasDefault then Default else Nothing, holds);
  }

  lemma {:induction false} UptoPrefix(n: nat, i: nat)
    requires i <= n
    ensures Upto(n)[..i] == Upto(i)
  {
  }

  // ----- catch --------------------------------------------------------------

  // A catch block: with an exception type, or for any exception.
  datatype Catch = Typed | Any

  // The catches with a type in front of the first that takes any.
  function TypedOnes(cs: seq<Catch>, n: nat): (ks: seq<nat>)
    requires n <= |cs|
    ensures forall i :: 0 <= i < |ks| ==> ks[i] < n && cs[ks[i]].Typed?
  {
    if n == 0 then []
    else if FirstAny(cs, n - 1) >= 0 || cs[n - 1].Any? then TypedOnes(cs, n - 1)
    else TypedOnes(cs, n - 1) + [n - 1]
  }

  // The first catch for any exception among the first n, or -1.
  function FirstAny(cs: seq<Catch>, n: nat): (i: int)
    requires n <= |cs|
    ensures -1 <= i < n && (i >= 0 ==> cs[i].Any?) && forall j :: 0 <= j < (if i < 0 then n else i) ==> cs[j].Typed?
  {
    if n == 0 then -1
    else if FirstAny(cs, n - 1) >= 0 then FirstAny(cs, n - 1)
    else if cs[n - 1].Any? then n - 1 else -1
  }

  function Catches(cs: seq<Catch>): Chain {
    var any := FirstAny(cs, |cs|);
    Link(TypedOnes(cs, |cs|), if any >= 0 then CatchAny(any) else Rethrow)
  }

  lemma {:induction false} TypedAre(cs: seq<Catch>, n: nat)
    requires n <= |cs|
    ensures var any := FirstAny(cs, n); TypedOnes(cs, n) == Upto(if any >= 0 then any else n)
  {
    if n > 0 { TypedAre(cs, n - 1); }
  }

  // An exception runs the first catch that takes it, or is thrown on; no catch
  // behind one for any exception is ever tested or run.
  lemma CatchRuns(cs: seq<Catch>, holds: nat -> bool)
    ensures var any := FirstAny(cs, |cs|);
            var leaf := if any >= 0 then CatchAny(any) else Rethrow;
            FirstOf(Run(Catches(cs), holds), if any >= 0 then any else |cs|, leaf, holds)
  {
    TypedAre(cs, |cs|);
    var any := FirstAny(cs, |cs|);
    LinkRuns(if any >= 0 then any else |cs|, if any >= 0 then CatchAny(any) else Rethrow, holds);
  }

  // ----- patching pointers --------------------------------------------------

  // An if statement whose else part is filled in later.
  class IfNode {
    const k: nat
    var elsePart: Else

    constructor (k: nat)
      ensures this.k == k && elsePart == Final(Nothing)
    {
      this.k := k;
      elsePart := Final(Nothing);
    }
  }

  datatype Else = Node(node: IfNode) | Final(leaf: Leaf)

  // The nodes from root on, in order, and what ends them.
  ghost predicate Linked(root: Else, nodes: seq<IfNode>, leaf: Leaf)
    reads set i | 0 <= i < |nodes| :: nodes[i]
  {
    if nodes == [] then root == Final(leaf)
    else
      root == Node(nodes[0]) && nodes[|nodes| - 1].elsePart == Final(leaf)
      && forall i :: 0 <= i < |nodes| - 1 ==> nodes[i].elsePart == Node(nodes[i + 1])
  }

  ghost predicate Distinct(nodes: seq<IfNode>) {
    forall i, j :: 0 <= i < j < |nodes| ==> nodes[i] != nodes[j]
  }

  ghost function Keys(nodes: seq<IfNode>): (ks: seq<nat>)
    ensures |ks| == |nodes| && forall i :: 0 <= i < |nodes| ==> ks[i] == nodes[i].k
  {
    seq(|nodes|, i requires 0 <= i < |nodes| => nodes[i].k)
  }

  // The chain that the nodes hold.
  ghost function Held(root: Else, nodes: seq<IfNode>, leaf: Leaf): Chain
    requires Linked(root, nodes, leaf)
    reads set i | 0 <= i < |nodes| :: nodes[i]
    decreases |nodes|
  {
    if nodes == [] then End(leaf) else If(nodes[0].k, Held(nodes[0].elsePart, nodes[1..], leaf))
  }

  lemma {:induction false} HeldIs(root: Else, nodes: seq<IfNode>, leaf: Leaf)
    requires Linked(root, nodes, leaf)
    ensures Held(root, nodes, leaf) == Link(Keys(nodes), leaf)
    decreases |nodes|
  {
    if nodes != [] {
      HeldIs(nodes[0].elsePart, nodes[1..], leaf);
      assert Keys(nodes)[1..] == Keys(nodes[1..]);
    }
  }

  // desugarSwitchStatement: nextPtr is the place of the root or the else part of
  // the last if.
  method DesugarSwitch(n: nat, hasDefault: bool) returns (root: Else, ghost nodes: seq<IfNode>)
    ensures fresh(set i | 0 <= i < |nodes| :: nodes[i])
    ensures var leaf := if hasDefault then Default else Nothing;
            Linked(root, nodes, leaf) && Held(root, nodes, leaf) == Link(Upto(n), leaf)
  {
    root, nodes := Final(Nothing), [];
    var last: Option<IfNode> := None;
    var i := 0;
    while i < n
      invariant i <= n && Keys(nodes) == Upto(i) && Open(root, nodes, last)
      invariant fresh(set j | 0 <= j < |nodes| :: nodes[j])
    {
      var node;
      root, node := Append(root, nodes, last, i);
      nodes := nodes + [node];
      last := Some(node);
      i := i + 1;
    }
    var leaf := if hasDefault then Default else Nothing;
    root := Patch(root, nodes, last, Final(leaf));
    HeldIs(root, nodes, leaf);
  }

  // A chain whose end is still to be filled in, behind last.
  ghost predicate Open(root: Else, nodes: seq<IfNode>, last: Option<IfNode>)
    reads set i | 0 <= i < |nodes| :: nodes[i]
  {
    Linked(root, nodes, Nothing) && Distinct(nodes) && last == if nodes == [] then None else Some(nodes[|nodes| - 1])
  }

  lemma Unlinked()
    ensures Open(Final(Nothing), [], None)
  {
  }

  // An if for k is put behind the last one.
  method Append(root: Else, ghost nodes: seq<IfNode>, last: Option<IfNode>, k: nat) returns (root': Else, node: IfNode)
    requires Open(root, nodes, last)
    modifies if last.Some? then {last.value} else {}
    ensures fresh(node) && Open(root', nodes + [node], Some(node)) && Keys(nodes + [node]) == Keys(nodes) + [k]
  {
    node := new IfNode(k);
    root' := Patch(root, nodes, last, Node(node));
    assert Keys(nodes + [node]) == Keys(nodes) + [k];
  }

  // What stands behind the last node is replaced.
  method Patch(root: Else, ghost nodes: seq<IfNode>, last: Option<IfNode>, e: Else) returns (root': Else)
    requires Open(root, nodes, last)
    requires e.Node? ==> e.node !in nodes && e.node.elsePart == Final(Nothing)
    modifies if last.Some? then {last.value} else {}
    ensures e.Final? ==> Linked(root', nodes, e.leaf)
    ensures e.Node? ==> Open(root', nodes + [e.node], Some(e.node))
  {
    root' := root;
    match last {
      case None => root' := e;
      case Some(node) => node.elsePart := e;
    }
    if e.Node? { assert (nodes + [e.node])[|nodes|] == e.node; }
  }

  // desugarCatchBlocks
  method DesugarCatch(cs: seq<Catch>) returns (root: Else, ghost nodes: seq<IfNode>, ghost leaf: Leaf)
    requires cs != []
    ensures fresh(set i | 0 <= i < |nodes| :: nodes[i])
    ensures Linked(root, nodes, leaf) && Held(root, nodes, leaf) == Catches(cs)
  {
    hide Linked, Held, Link, Run;
    root, nodes, leaf := Final(Nothing), [], Nothing;
    var lastIf: Option<IfNode> := None;
    Unlinked();
    var lastWasAny := false;
    var i := 0;
    while i < |cs|
      invariant i <= |cs| && Keys(nodes) == TypedOnes(cs, i) && lastWasAny == (FirstAny(cs, i) >= 0)
      invariant fresh(set j | 0 <= j < |nodes| :: nodes[j])
      invariant if lastWasAny then leaf == CatchAny(FirstAny(cs, i)) && Linked(root, nodes, leaf) else Open(root, nodes, lastIf)
    {
      if !lastWasAny {
        if cs[i].Typed? {
          var node;
          root, node := Append(root, nodes, lastIf, i);
          nodes := nodes + [node];
          lastIf := Some(node);
        } else {
          root := Patch(root, nodes, lastIf, Final(CatchAny(i)));
          leaf := CatchAny(i);
          lastWasAny := true;
          lastIf := None;
        }
      }
      i := i + 1;
    }
    if !lastWasAny {
      root := Patch(root, nodes, lastIf, Final(Rethrow));
      leaf := Rethrow;
    }
    HeldIs(root, nodes, leaf);
  }
}
