// Multiple dispatch: the chain of tag comparisons that picks a callable's
// overload, and the types it is analysed with.
module Dispatch {
  import opened Wrappers

  datatype Type = Atom(id: nat) | Sum(members: seq<Type>)

  // An argument: where it comes from, and its type once members are picked.
  datatype Arg = Arg(origin: nat, t: Type)

  // dispatchTagCount and analyzeDispatchIndex
  function TagCount(t: Type): nat {
    match t
    case Sum(members) => |members|
    case Atom(_) => 0
  }

  function Member(t: Type, tag: nat): Type
    requires tag < TagCount(t)
  {
    t.members[tag]
  }

  // The emitted comparisons: case i is taken when the tag of the argument at
  // position index is i, and no tag matching is an invalid dispatch.
  datatype Tree =
    | Call(args: seq<Arg>)
    | Compare(index: nat, cases: seq<Tree>)

  predicate InBounds(args: seq<Arg>, indices: seq<nat>) {
    forall k :: 0 <= k < |indices| ==> indices[k] < |args|
  }

  // The arguments in front, the member, the arguments behind.
  function Replace(args: seq<Arg>, index: nat, tag: nat): (r: seq<Arg>)
    requires index < |args| && tag < TagCount(args[index].t)
    ensures |r| == |args|
  {
    args[..index] + [args[index].(t := Member(args[index].t, tag))] + args[index + 1..]
  }

  // codegenDispatch, and the cases of one position from case i on.
  function Generate(args: seq<Arg>, indices: seq<nat>): Tree
    requires InBounds(args, indices)
    decreases |indices|, 2
  {
    if indices == [] then Call(args) else Compare(indices[0], Cases(args, indices, TagCount(args[indices[0]].t)))
  }

  function Cases(args: seq<Arg>, indices: seq<nat>, n: nat): (r: seq<Tree>)
    requires indices != [] && InBounds(args, indices) && n <= TagCount(args[indices[0]].t)
    ensures |r| == n
    decreases |indices|, 1, n
  {
    if n == 0 then []
    else Cases(args, indices, n - 1) + [Generate(Replace(args, indices[0], n - 1), indices[1..])]
  }

  // ----- running the comparisons --------------------------------------------

  datatype Reached = Called(args: seq<Arg>) | InvalidDispatch(index: nat)

  // tags gives, for each comparison down the tree, the tag found.
  function RunTree(t: Tree, tags: seq<nat>): Reached
    decreases t, 0
  {
    match t
    case Call(args) => Called(args)
    case Compare(index, cases) =>
      if tags == [] then InvalidDispatch(index) else TryCases(index, cases, 0, tags)
  }

  // Comparing the first tag with i, i + 1, and so on.
  function TryCases(index: nat, cases: seq<Tree>, i: nat, tags: seq<nat>): Reached
    requires i <= |cases| && tags != []
    decreases cases, |cases| - i
  {
    if i == |cases| then InvalidDispatch(index)
    else if tags[0] == i then RunTree(cases[i], tags[1..])
    else TryCases(index, cases, i + 1, tags)
  }

  // ----- what it should reach -----------------------------------------------

  // Each dispatched position replaced in turn by the member for its tag.
  function Narrowed(args: seq<Arg>, indices: seq<nat>, tags: seq<nat>): (r: Option<seq<Arg>>)
    requires InBounds(args, indices)
    ensures r.Some? ==> |r.value| == |args|
    decreases |indices|
  {
    if indices == [] then Some(args)
    else if tags == [] || tags[0] >= TagCount(args[indices[0]].t) then None
    else Narrowed(Replace(args, indices[0], tags[0]), indices[1..], tags[1..])
  }

  lemma {:induction false} TriesInOrder(index: nat, cases: seq<Tree>, i: nat, tags: seq<nat>)
    requires i <= |cases| && tags != []
    ensures TryCases(index, cases, i, tags) ==
              if i <= tags[0] < |cases| then RunTree(cases[tags[0]], tags[1..]) else InvalidDispatch(index)
    decreases |cases| - i
  {
    if i < |cases| && tags[0] != i { TriesInOrder(index, cases, i + 1, tags); }
  }

  lemma {:induction false} CaseAt(args: seq<Arg>, indices: seq<nat>, n: nat, i: nat)
    requires indices != [] && InBounds(args, indices) && i < n <= TagCount(args[indices[0]].t)
    ensures Cases(args, indices, n)[i] == Generate(Replace(args, indices[0], i), indices[1..])
    decreases n
  {
    if i < n - 1 { CaseAt(args, indices, n - 1, i); }
  }

  // For every vector of tags the tree calls with exactly the narrowed arguments,
  // or reports an invalid dispatch, which it does only for a tag out of range.
  lemma {:induction false} DispatchExact(args: seq<Arg>, indices: seq<nat>, tags: seq<nat>)
    requires InBounds(args, indices)
    ensures var r := RunTree(Generate(args, indices), tags);
            match Narrowed(args, indices, tags)
            case Some(narrowed) => r == Called(narrowed)
            case None => r.InvalidDispatch?
    decreases |indices|
  {
    if indices != [] && tags != [] {
      var n := TagCount(args[indices[0]].t);
      var cases := Cases(args, indices, n);
      TriesInOrder(indices[0], cases, 0, tags);
      if tags[0] < n {
        CaseAt(args, indices, n, tags[0]);
        DispatchExact(Replace(args, indices[0], tags[0]), indices[1..], tags[1..]);
      }
    }
  }

  predicate Distinct(indices: seq<nat>) {
    forall j, k :: 0 <= j < k < |indices| ==> indices[j] != indices[k]
  }

  // Dispatched positions hold the member for their tag; the others are as they
  // were, and every argument is still the argument it was.
  lemma {:induction false} NarrowedAt(args: seq<Arg>, indices: seq<nat>, tags: seq<nat>, p: nat)
    requires InBounds(args, indices) && Distinct(indices) && Narrowed(args, indices, tags).Some? && p < |args|
    ensures var r := Narrowed(args, indices, tags).value;
            && r[p].origin == args[p].origin
            && (p !in indices ==> r[p] == args[p])
            && forall k :: 0 <= k < |indices| && indices[k] == p ==>
                 k < |tags| && tags[k] < TagCount(args[p].t) && r[p].t == Member(args[p].t, tags[k])
    decreases |indices|
  {
    if indices != [] {
      var rest := Replace(args, indices[0], tags[0]);
      NarrowedAt(rest, indices[1..], tags[1..], p);
      forall k | 0 <= k < |indices| && indices[k] == p
        ensures k < |tags| && tags[k] < TagCount(args[p].t) && Narrowed(args, indices, tags).value[p].t == Member(args[p].t, tags[k])
      {
        if k == 0 {
          assert p !in indices[1..];
        } else {
          assert indices[1..][k - 1] == p && tags[1..][k - 1] == tags[k];
        }
      }
    }
  }

  // ----- which tags are read ------------------------------------------------

  // The same comparisons when the argument at position index has the tag
  // tagOf(index).
  function RunOn(t: Tree, tagOf: nat -> nat): Reached
    decreases t, 0
  {
    match t
    case Call(args) => Called(args)
    case Compare(index, cases) => TryOn(index, cases, 0, tagOf)
  }

  function TryOn(index: nat, cases: seq<Tree>, i: nat, tagOf: nat -> nat): Reached
    requires i <= |cases|
    decreases cases, |cases| - i
  {
    if i == |cases| then InvalidDispatch(index)
    else if tagOf(index) == i then RunOn(cases[i], tagOf)
    else TryOn(index, cases, i + 1, tagOf)
  }

  lemma {:induction false} TriesOn(index: nat, cases: seq<Tree>, i: nat, tagOf: nat -> nat)
    requires i <= |cases|
    ensures TryOn(index, cases, i, tagOf) ==
              if i <= tagOf(index) < |cases| then RunOn(cases[tagOf(index)], tagOf) else InvalidDispatch(index)
    decreases |cases| - i
  {
    if i < |cases| && tagOf(index) != i { TriesOn(index, cases, i + 1, tagOf); }
  }

  // The tag of the argument at a dispatched position is in range.
  predicate InRange(args: seq<Arg>, p: nat, tagOf: nat -> nat)
    requires p < |args|
  {
    args[p].t.Sum? && tagOf(p) < |args[p].t.members|
  }

  // An argument as the call gets it: narrowed where it is dispatched on.
  predicate Passed(a: Arg, r: Arg, dispatched: bool, tag: nat) {
    if dispatched then a.t.Sum? && tag < |a.t.members| && r == a.(t := a.t.members[tag]) else r == a
  }

  // The call is reached with the arguments at the dispatched positions narrowed to
  // the members for their own tags, or an invalid dispatch is reported for the
  // first position whose tag is out of range.
  ghost predicate Dispatched(args: seq<Arg>, indices: seq<nat>, tagOf: nat -> nat, r: Reached)
    requires InBounds(args, indices)
  {
    match r
    case Called(r) =>
      && (forall k :: 0 <= k < |indices| ==> InRange(args, indices[k], tagOf))
      && |r| == |args| && forall p :: 0 <= p < |args| ==> Passed(args[p], r[p], p in indices, tagOf(p))
    case InvalidDispatch(p) =>
      exists k :: 0 <= k < |indices| && indices[k] == p && !InRange(args, p, tagOf)
                  && forall j :: 0 <= j < k ==> InRange(args, indices[j], tagOf)
  }

  // Each comparison reads the tag of the argument dispatched on, whatever tags the
  // arguments have.
  lemma {:induction false} DispatchOn(args: seq<Arg>, indices: seq<nat>, tagOf: nat -> nat)
    requires InBounds(args, indices) && Distinct(indices)
    ensures Dispatched(args, indices, tagOf, RunOn(Generate(args, indices), tagOf))
    decreases |indices|
  {
    if indices != [] {
      var index, rest := indices[0], indices[1..];
      var n := TagCount(args[index].t);
      var tag := tagOf(index);
      TriesOn(index, Cases(args, indices, n), 0, tagOf);
      if tag < n {
        CaseAt(args, indices, n, tag);
        var args' := Replace(args, index, tag);
        assert forall k :: 0 <= k < |rest| ==> rest[k] == indices[k + 1] && args'[rest[k]] == args[rest[k]];
        DispatchOn(args', rest, tagOf);
        OneFurther(args, indices, tagOf, RunOn(Generate(args', rest), tagOf));
      } else {
        assert indices[0] == index && !InRange(args, index, tagOf);
      }
    }
  }

  lemma OneFurther(args: seq<Arg>, indices: seq<nat>, tagOf: nat -> nat, r: Reached)
    requires indices != [] && InBounds(args, indices) && Distinct(indices) && InRange(args, indices[0], tagOf)
    requires Dispatched(Replace(args, indices[0], tagOf(indices[0])), indices[1..], tagOf, r)
    ensures Dispatched(args, indices, tagOf, r)
  {
    var index, rest := indices[0], indices[1..];
    var args' := Replace(args, index, tagOf(index));
    match r
    case Called(r) =>
      forall k | 0 <= k < |indices| ensures InRange(args, indices[k], tagOf) {
        if k > 0 { assert InRange(args', rest[k - 1], tagOf); }
      }
      forall p | 0 <= p < |args| ensures Passed(args[p], r[p], p in indices, tagOf(p)) {
        assert Passed(args'[p], r[p], p in rest, tagOf(p));
        assert indices == [index] + rest;
      }
    case InvalidDispatch(p) =>
      var k :| 0 <= k < |rest| && rest[k] == p && !InRange(args', p, tagOf) && forall j :: 0 <= j < k ==> InRange(args', rest[j], tagOf);
      assert indices[k + 1] == p;
      forall j | 0 <= j < k + 1 ensures InRange(args, indices[j], tagOf) {
        if j > 0 { assert InRange(args', rest[j - 1], tagOf); }
      }
  }

  // ----- the analysed result type -------------------------------------------

  // What analysing a call gives: its result type, or nothing yet (recursion).
  type Signature = seq<Arg> -> Option<nat>

  datatype Analysis = Result(t: nat) | Unknown | Mismatch | NoMembers // the assertion at the end fails

  // analyzeDispatch: all cases must agree with the first.
  function Analyze(sig: Signature, args: seq<Arg>, indices: seq<nat>): Analysis
    requires InBounds(args, indices)
    decreases |indices|, 2
  {
    if indices == [] then
      match sig(args)
      case Some(t) => Result(t)
      case None => Unknown
    else AnalyzeCases(sig, args, indices, TagCount(args[indices[0]].t))
  }

  // After n cases.
  function AnalyzeCases(sig: Signature, args: seq<Arg>, indices: seq<nat>, n: nat): Analysis
    requires indices != [] && InBounds(args, indices) && n <= TagCount(args[indices[0]].t)
    decreases |indices|, 1, n
  {
    if n == 0 then NoMembers
    else
      var before := if n == 1 then NoMembers else AnalyzeCases(sig, args, indices, n - 1);
      if n > 1 && !before.Result? then before
      else
        var last := Analyze(sig, Replace(args, indices[0], n - 1), indices[1..]);
        if n == 1 || !last.Result? || last == before then last else Mismatch
  }

  lemma {:induction false} CasesAgree(sig: Signature, args: seq<Arg>, indices: seq<nat>, n: nat, i: nat)
    requires indices != [] && InBounds(args, indices) && i < n <= TagCount(args[indices[0]].t)
    requires AnalyzeCases(sig, args, indices, n).Result?
    ensures Analyze(sig, Replace(args, indices[0], i), indices[1..]) == AnalyzeCases(sig, args, indices, n)
    decreases n
  {
    if i < n - 1 { CasesAgree(sig, args, indices, n - 1, i); }
  }

  // If analysis gives a result type, every call the tree can reach returns it.
  lemma {:induction false} LeavesReturn(sig: Signature, args: seq<Arg>, indices: seq<nat>, tags: seq<nat>)
    requires InBounds(args, indices) && Analyze(sig, args, indices).Result?
    requires RunTree(Generate(args, indices), tags).Called?
    ensures sig(RunTree(Generate(args, indices), tags).args) == Some(Analyze(sig, args, indices).t)
    decreases |indices|
  {
    DispatchExact(args, indices, tags);
    if indices != [] {
      var n := TagCount(args[indices[0]].t);
      CasesAgree(sig, args, indices, n, tags[0]);
      DispatchExact(Replace(args, indices[0], tags[0]), indices[1..], tags[1..]);
      LeavesReturn(sig, Replace(args, indices[0], tags[0]), indices[1..], tags[1..]);
    }
  }

  // Every comparison has a case.
  predicate Inhabited(args: seq<Arg>, indices: seq<nat>)
    requires InBounds(args, indices)
    decreases |indices|
  {
    indices == [] ||
    (TagCount(args[indices[0]].t) > 0 &&
     forall i :: 0 <= i < TagCount(args[indices[0]].t) ==> Inhabited(Replace(args, indices[0], i), indices[1..]))
  }

  // The tags lead to a call, and the analysis of that call gives t.
  predicate LeafGives(sig: Signature, args: seq<Arg>, indices: seq<nat>, tags: seq<nat>, t: Option<nat>)
    requires InBounds(args, indices)
  {
    var r := RunTree(Generate(args, indices), tags);
    r.Called? && sig(r.args) == t
  }

  ghost predicate SomeLeaf(sig: Signature, args: seq<Arg>, indices: seq<nat>, t: Option<nat>)
    requires InBounds(args, indices)
  {
    exists tags :: LeafGives(sig, args, indices, tags, t)
  }

  lemma LeafAbove(sig: Signature, args: seq<Arg>, indices: seq<nat>, i: nat, t: Option<nat>)
    requires indices != [] && InBounds(args, indices) && i < TagCount(args[indices[0]].t)
    requires SomeLeaf(sig, Replace(args, indices[0], i), indices[1..], t)
    ensures SomeLeaf(sig, args, indices, t)
  {
    var tags :| LeafGives(sig, Replace(args, indices[0], i), indices[1..], tags, t);
    LeafBelow(sig, args, indices, i, tags, t);
  }

  lemma LeafBelow(sig: Signature, args: seq<Arg>, indices: seq<nat>, i: nat, tags: seq<nat>, t: Option<nat>)
    requires indices != [] && InBounds(args, indices) && i < TagCount(args[indices[0]].t)
    ensures LeafGives(sig, args, indices, [i] + tags, t) <==> LeafGives(sig, Replace(args, indices[0], i), indices[1..], tags, t)
  {
    var n := TagCount(args[indices[0]].t);
    TriesInOrder(indices[0], Cases(args, indices, n), 0, [i] + tags);
    CaseAt(args, indices, n, i);
    assert ([i] + tags)[1..] == tags;
  }

  // What the answers of the analysis mean: a result type is that of some call;
  // without one, some call has no type yet, or two calls disagree, or a comparison
  // has no cases.
  lemma {:induction false} AnalysisMeans(sig: Signature, args: seq<Arg>, indices: seq<nat>)
    requires InBounds(args, indices)
    ensures match Analyze(sig, args, indices)
            case Result(t) => Inhabited(args, indices) && SomeLeaf(sig, args, indices, Some(t))
            case Unknown => SomeLeaf(sig, args, indices, None)
            case Mismatch =>
              exists t: nat, t': nat :: t != t' && SomeLeaf(sig, args, indices, Some(t)) && SomeLeaf(sig, args, indices, Some(t'))
            case NoMembers => !Inhabited(args, indices)
    decreases |indices|, 1
  {
    if indices == [] {
      assert RunTree(Generate(args, indices), []) == Called(args);
      assert LeafGives(sig, args, indices, [], sig(args));
    } else {
      CasesMean(sig, args, indices, TagCount(args[indices[0]].t));
      hide AnalyzeCases, SomeLeaf, Replace;
    }
  }

  // The same after n cases.
  lemma {:induction false} CasesMean(sig: Signature, args: seq<Arg>, indices: seq<nat>, n: nat)
    requires indices != [] && InBounds(args, indices) && n <= TagCount(args[indices[0]].t)
    ensures match AnalyzeCases(sig, args, indices, n)
            case Result(t) =>
              && n > 0 && (forall i :: 0 <= i < n ==> Inhabited(Replace(args, indices[0], i), indices[1..]))
              && SomeLeaf(sig, args, indices, Some(t))
            case Unknown => SomeLeaf(sig, args, indices, None)
            case Mismatch =>
              exists t: nat, t': nat :: t != t' && SomeLeaf(sig, args, indices, Some(t)) && SomeLeaf(sig, args, indices, Some(t'))
            case NoMembers => n == 0 || exists i :: 0 <= i < n && !Inhabited(Replace(args, indices[0], i), indices[1..])
    decreases |indices|, 0, n
  {
    hide Inhabited, SomeLeaf;
    if n > 0 {
      if n > 1 { CasesMean(sig, args, indices, n - 1); }
      var args', rest := Replace(args, indices[0], n - 1), indices[1..];
      AnalysisMeans(sig, args', rest);
      forall t | SomeLeaf(sig, args', rest, t) ensures SomeLeaf(sig, args, indices, t) {
        LeafAbove(sig, args, indices, n - 1, t);
      }
    }
  }

  // So there is a result type if and only if every comparison has a case and every
  // call that can be reached has that type.
  lemma ResultIff(sig: Signature, args: seq<Arg>, indices: seq<nat>, t: nat)
    requires InBounds(args, indices)
    ensures Analyze(sig, args, indices) == Result(t) <==>
            Inhabited(args, indices) && forall tags, t' :: LeafGives(sig, args, indices, tags, t') ==> t' == Some(t)
  {
    AnalysisMeans(sig, args, indices);
    if Analyze(sig, args, indices) == Result(t) {
      forall tags, t' | LeafGives(sig, args, indices, tags, t') ensures t' == Some(t) {
        LeavesReturn(sig, args, indices, tags);
      }
    }
  }

  // ----- generation and analysis, with their loops --------------------------

  method CodegenDispatch(args: seq<Arg>, indices: seq<nat>) returns (t: Tree)
    requires InBounds(args, indices)
    ensures t == Generate(args, indices)
    decreases |indices|
  {
    if indices == [] { return Call(args); }
    var index := indices[0];
    var memberCount := TagCount(args[index].t);
    var cases := [];
    for i := 0 to memberCount
      invariant cases == Cases(args, indices, i)
    {
      var c := CodegenDispatch(Replace(args, index, i), indices[1..]);
      cases := cases + [c];
    }
    return Compare(index, cases);
  }

  method AnalyzeDispatch(sig: Signature, args: seq<Arg>, indices: seq<nat>) returns (r: Analysis)
    requires InBounds(args, indices)
    ensures r == Analyze(sig, args, indices)
    decreases |indices|
  {
    if indices == [] {
      var t := sig(args);
      return if t.Some? then Result(t.value) else Unknown;
    }
    var index := indices[0];
    var memberCount := TagCount(args[index].t);
    r := NoMembers;
    for i := 0 to memberCount
      invariant r == AnalyzeCases(sig, args, indices, i)
      invariant i > 0 ==> r.Result?
    {
      var last := AnalyzeDispatch(sig, Replace(args, index, i), indices[1..]);
      var next := if !last.Result? || i == 0 || last == r then last else Mismatch;
      if !next.Result? {
        AnalyzeStops(sig, args, indices, i + 1, memberCount);
        return next;
      }
      r := next;
    }
  }

  lemma AnalyzeStops(sig: Signature, args: seq<Arg>, indices: seq<nat>, m: nat, n: nat)
    requires indices != [] && InBounds(args, indices) && 0 < m <= n <= TagCount(args[indices[0]].t)
    requires !AnalyzeCases(sig, args, indices, m).Result?
    ensures AnalyzeCases(sig, args, indices, n) == AnalyzeCases(sig, args, indices, m)
  {
    if m < n { AnalyzeStops(sig, args, indices, m, n - 1); }
  }
}
