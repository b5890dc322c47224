// Stack slots for temporaries: handed out, given back in bulk, and used again.
module Slots {

  // StackSlot: storage for one value of a type.
  datatype StackSlot = StackSlot(llType: nat, alloca: nat)

  // allocatedSlots and discardedSlots; next counts the allocas made so far.
  datatype State = State(taken: seq<StackSlot>, spare: seq<StackSlot>, next: nat)

  // The last discarded slot of a type, of the first n, or -1.
  function Last(spare: seq<StackSlot>, n: nat, llType: nat): (i: int)
    requires n <= |spare|
    ensures -1 <= i < n && (i >= 0 ==> spare[i].llType == llType)
    ensures forall j :: i < j < n ==> spare[j].llType != llType
  {
    if n == 0 then -1
    else if spare[n - 1].llType == llType then n - 1
    else Last(spare, n - 1, llType)
  }

  function Without(ss: seq<StackSlot>, i: nat): seq<StackSlot>
    requires i < |ss|
  {
    ss[..i] + ss[i + 1..]
  }

  // allocTemp: the new slot is the last of those allocated.
  function Alloc(s: State, llType: nat): (s': State)
    ensures |s'.taken| == |s.taken| + 1 && s'.taken[..|s.taken|] == s.taken
  {
    var i := Last(s.spare, |s.spare|, llType);
    if i >= 0 then State(s.taken + [s.spare[i]], Without(s.spare, i), s.next)
    else State(s.taken + [StackSlot(llType, s.next)], s.spare, s.next + 1)
  }

  // clearTemps
  function Clear(s: State, marker: nat): State
    decreases |s.taken|
  {
    var n := |s.taken|;
    if n <= marker then s
    else Clear(State(s.taken[..n - 1], s.spare + [s.taken[n - 1]], s.next), marker)
  }

  // The one of that type that was discarded last.
  predicate Newest(spare: seq<StackSlot>, i: nat, llType: nat) {
    i < |spare| && spare[i].llType == llType && forall j :: i < j < |spare| ==> spare[j].llType != llType
  }

  // A new slot is made if and only if no discarded one has the type; else the one
  // discarded last of those that have it is taken, and the others stay in order.
  lemma AllocReuses(s: State, llType: nat)
    ensures var s' := Alloc(s, llType);
            if exists i :: 0 <= i < |s.spare| && s.spare[i].llType == llType then
              exists i: nat :: Newest(s.spare, i, llType)
                          && s' == State(s.taken + [s.spare[i]], s.spare[..i] + s.spare[i + 1..], s.next)
            else s' == State(s.taken + [StackSlot(llType, s.next)], s.spare, s.next + 1)
  {
    var i := Last(s.spare, |s.spare|, llType);
    if i >= 0 { assert Newest(s.spare, i, llType); }
  }

  function Reversed(ss: seq<StackSlot>): seq<StackSlot> {
    seq(|ss|, i requires 0 <= i < |ss| => ss[|ss| - 1 - i])
  }

  // Slots are given back newest first, so that the oldest of a type is the first
  // to be used again.
  lemma {:induction false} ClearOrder(s: State, marker: nat)
    requires marker <= |s.taken|
    ensures Clear(s, marker) == State(s.taken[..marker], s.spare + Reversed(s.taken[marker..]), s.next)
    decreases |s.taken|
  {
    var n := |s.taken|;
    if n > marker {
      var rest, x := s.taken[..n - 1], s.taken[n - 1];
      ClearOrder(State(rest, s.spare + [x], s.next), marker);
      assert rest[..marker] == s.taken[..marker];
      assert Reversed(s.taken[marker..]) == [x] + Reversed(rest[marker..]);
      assert s.spare + [x] + Reversed(rest[marker..]) == s.spare + ([x] + Reversed(rest[marker..]));
    } else {
      assert s.spare + Reversed([]) == s.spare && s.taken[marker..] == [];
    }
  }

  // ----- every slot once ----------------------------------------------------

  function Count(ss: seq<StackSlot>, a: nat): nat {
    if ss == [] then 0 else Count(ss[..|ss| - 1], a) + if ss[|ss| - 1].alloca == a then 1 else 0
  }

  lemma {:induction false} CountConcat(x: seq<StackSlot>, y: seq<StackSlot>, a: nat)
    ensures Count(x + y, a) == Count(x, a) + Count(y, a)
  {
    if y == [] {
      assert x + y == x;
    } else {
      assert (x + y)[..|x + y| - 1] == x + y[..|y| - 1];
      CountConcat(x, y[..|y| - 1], a);
    }
  }

  lemma CountOne(x: StackSlot, a: nat)
    ensures Count([x], a) == if x.alloca == a then 1 else 0
  {
    assert [x][..0] == [];
  }

  lemma {:induction false} CountIn(ss: seq<StackSlot>, i: nat)
    requires i < |ss|
    ensures Count(ss, ss[i].alloca) >= 1
  {
    if i < |ss| - 1 { CountIn(ss[..|ss| - 1], i); }
  }

  // Each alloca is in exactly one of the two lists, and there once.
  ghost predicate Valid(s: State) {
    forall a: nat :: Count(s.taken, a) + Count(s.spare, a) == if a < s.next then 1 else 0
  }

  // A slot of the type, used by nothing allocated before; every alloca is still
  // accounted for.
  lemma AllocValid(s: State, llType: nat)
    requires Valid(s)
    ensures Valid(Alloc(s, llType))
    ensures var x := Alloc(s, llType).taken[|s.taken|];
            x.llType == llType && Count(s.taken, x.alloca) == 0
  {
    var s' := Alloc(s, llType);
    var i := Last(s.spare, |s.spare|, llType);
    var x := s'.taken[|s.taken|];
    assert s'.taken == s.taken + [x];
    forall a: nat
      ensures Count(s'.taken, a) + Count(s'.spare, a) == if a < s'.next then 1 else 0
    {
      CountConcat(s.taken, [x], a);
      CountOne(x, a);
      if i >= 0 {
        assert s.spare == s.spare[..i] + ([x] + s.spare[i + 1..]);
        CountConcat(s.spare[..i], [x] + s.spare[i + 1..], a);
        CountConcat([x], s.spare[i + 1..], a);
        CountConcat(s.spare[..i], s.spare[i + 1..], a);
      }
    }
    if i >= 0 { CountIn(s.spare, i); }
  }

  // One slot given back.
  lemma GivenBackValid(s: State)
    requires Valid(s) && s.taken != []
    ensures var n := |s.taken| - 1; Valid(State(s.taken[..n], s.spare + [s.taken[n]], s.next))
  {
    var n := |s.taken| - 1;
    var x := s.taken[n];
    var s1 := State(s.taken[..n], s.spare + [x], s.next);
    forall a: nat ensures Count(s1.taken, a) + Count(s1.spare, a) == if a < s1.next then 1 else 0 {
      assert Count(s.taken, a) == Count(s1.taken, a) + if x.alloca == a then 1 else 0;
      assert Count(s.taken, a) + Count(s.spare, a) == if a < s.next then 1 else 0;
      CountConcat(s.spare, [x], a);
      CountOne(x, a);
    }
  }

  lemma {:induction false} ClearValid(s: State, marker: nat)
    requires Valid(s) && marker <= |s.taken|
    ensures Valid(Clear(s, marker)) && Clear(s, marker).taken == s.taken[..marker]
    decreases |s.taken|
  {
    hide Valid;
    var n := |s.taken|;
    if n > marker {
      GivenBackValid(s);
      ClearValid(State(s.taken[..n - 1], s.spare + [s.taken[n - 1]], s.next), marker);
      assert s.taken[..n - 1][..marker] == s.taken[..marker];
    }
  }

  // ----- use by the code generator ------------------------------------------

  // What code generation does with slots and the value stack. Value: a slot, the
  // code that fills it, and then the value is on the stack. Whole: a statement or
  // condition, whose temporaries end with it, on the stack and in the list.
  // Scope: a block, an operand of and/or, or the copy of a cleanup body made for
  // an exit; its values leave the stack, its slots stay.
  datatype Use =
    | Value(llType: nat, fill: seq<Use>)
    | Pointer(llType: nat)
    | Whole(body: seq<Use>)
    | Scope(body: seq<Use>)

  // live: the slots of the temporaries on the value stack.
  datatype Now = Now(s: State, live: seq<StackSlot>)

  function Do(u: Use, n: Now): (n': Now)
    ensures n.live <= n'.live
    decreases u, 0
  {
    match u
    case Value(t, fill) =>
      var s1 := Alloc(n.s, t);
      var n1 := DoAll(fill, Now(s1, n.live));
      n1.(live := n1.live + [s1.taken[|n.s.taken|]])
    case Pointer(t) => n.(s := Alloc(n.s, t))
    case Whole(body) =>
      var n1 := DoAll(body, n);
      Now(Clear(n1.s, |n.s.taken|), n1.live[..|n.live|])
    case Scope(body) =>
      var n1 := DoAll(body, n);
      n1.(live := n1.live[..|n.live|])
  }

  function DoAll(us: seq<Use>, n: Now): (n': Now)
    ensures n.live <= n'.live
    decreases us, 1
  {
    if us == [] then n else Do(us[|us| - 1], DoAll(us[..|us| - 1], n))
  }

  // No two live temporaries share storage, and all of it is allocated.
  ghost predicate Safe(n: Now) {
    && Valid(n.s)
    && (forall i :: 0 <= i < |n.live| ==> n.live[i] in n.s.taken)
    && (forall i, j :: 0 <= i < j < |n.live| ==> n.live[i].alloca != n.live[j].alloca)
  }

  // Nothing allocated before has been given back.
  ghost predicate Keeps(n: Now, n': Now) {
    n.s.taken <= n'.s.taken
  }

  lemma KeepsThen(a: Now, b: Now, c: Now)
    requires Keeps(a, b) && Keeps(b, c)
    ensures Keeps(a, c)
  {
  }

  // A slot given out is the storage of no live temporary, nor allocated to
  // anything that is still being filled.
  lemma FreshSlot(n: Now, llType: nat)
    requires Safe(n)
    ensures var x := Alloc(n.s, llType).taken[|n.s.taken|];
            && x.llType == llType && (forall i :: 0 <= i < |n.s.taken| ==> n.s.taken[i].alloca != x.alloca)
            && (forall i :: 0 <= i < |n.live| ==> n.live[i].alloca != x.alloca)
            && Safe(Now(Alloc(n.s, llType), n.live)) && Keeps(n, Now(Alloc(n.s, llType), n.live))
  {
    var s' := Alloc(n.s, llType);
    var x := s'.taken[|n.s.taken|];
    AllocValid(n.s, llType);
    assert s'.taken == n.s.taken + [x];
    forall i | 0 <= i < |n.s.taken| ensures n.s.taken[i].alloca != x.alloca { CountIn(n.s.taken, i); }
  }

  // Whatever is compiled, in whatever order: live temporaries never share
  // storage, and what was allocated stays so.
  lemma {:induction false} DoSafe(u: Use, n: Now)
    requires Safe(n)
    ensures Safe(Do(u, n)) && Keeps(n, Do(u, n))
    decreases u, 0
  {
    hide Valid, Clear;
    match u
    case Value(t, fill) =>
      FreshSlot(n, t);
      var m := Now(Alloc(n.s, t), n.live);
      var n1 := DoAll(fill, m);
      DoAllSafe(fill, m);
      KeepsThen(n, m, n1);
      ValueSafe(m, n1, fill, |n.s.taken|);
    case Pointer(t) => FreshSlot(n, t);
    case Whole(body) =>
      var n1 := DoAll(body, n);
      DoAllSafe(body, n);
      ClearValid(n1.s, |n.s.taken|);
      assert n1.s.taken[..|n.s.taken|] == n.s.taken && n1.live[..|n.live|] == n.live;
    case Scope(body) =>
      DoAllSafe(body, n);
  }

  // The value just built is on top of what has been built for it.
  lemma {:induction false} ValueSafe(m: Now, n1: Now, fill: seq<Use>, k: nat)
    requires Safe(m) && Safe(n1) && n1 == DoAll(fill, m) && Keeps(m, n1) && k < |m.s.taken|
    requires forall i :: 0 <= i < |m.live| ==> m.live[i].alloca != m.s.taken[k].alloca
    ensures Safe(n1.(live := n1.live + [m.s.taken[k]]))
    decreases fill, 2
  {
    var x := m.s.taken[k];
    LiveIsNew(fill, m, k);
    var n' := n1.(live := n1.live + [x]);
    assert n1.s.taken[k] == x;
  }

  // What is built for a value goes into other slots.
  lemma {:induction false} LiveIsNew(us: seq<Use>, n: Now, k: nat)
    requires Safe(n) && k < |n.s.taken| && forall i :: 0 <= i < |n.live| ==> n.live[i].alloca != n.s.taken[k].alloca
    ensures forall i :: 0 <= i < |DoAll(us, n).live| ==> DoAll(us, n).live[i].alloca != n.s.taken[k].alloca
    decreases us, 1
  {
    hide Valid, Clear;
    if us != [] {
      var before := us[..|us| - 1];
      LiveIsNew(before, n, k);
      DoAllSafe(before, n);
      OneIsNew(us[|us| - 1], DoAll(before, n), k);
    }
  }

  lemma {:induction false} OneIsNew(u: Use, n: Now, k: nat)
    requires Safe(n) && k < |n.s.taken| && forall i :: 0 <= i < |n.live| ==> n.live[i].alloca != n.s.taken[k].alloca
    ensures forall i :: 0 <= i < |Do(u, n).live| ==> Do(u, n).live[i].alloca != n.s.taken[k].alloca
    decreases u, 0
  {
    hide Valid, Clear;
    match u
    case Value(t, fill) =>
      FreshSlot(n, t);
      var m := Now(Alloc(n.s, t), n.live);
      assert m.s.taken[k] == n.s.taken[k];
      LiveIsNew(fill, m, k);
    case Pointer(t) =>
    case Whole(body) => LiveIsNew(body, n, k);
    case Scope(body) => LiveIsNew(body, n, k);
  }

  lemma {:induction false} DoAllSafe(us: seq<Use>, n: Now)
    requires Safe(n)
    ensures Safe(DoAll(us, n)) && Keeps(n, DoAll(us, n))
    decreases us, 1
  {
    hide Safe;
    if us != [] {
      var before := DoAll(us[..|us| - 1], n);
      DoAllSafe(us[..|us| - 1], n);
      DoSafe(us[|us| - 1], before);
      KeepsThen(n, before, DoAll(us, n));
    }
  }

  // A value is one more live temporary; a statement or condition gives back what it
  // has allocated, and neither it nor a scope leaves temporaries alive.
  lemma DoLeaves(u: Use, n: Now)
    requires Safe(n)
    ensures match u
            case Value(t, _) => |Do(u, n).live| > |n.live| && Do(u, n).live[|Do(u, n).live| - 1] == Alloc(n.s, t).taken[|n.s.taken|]
            case Pointer(_) => Do(u, n).live == n.live
            case Whole(_) => Do(u, n).live == n.live && Do(u, n).s.taken == n.s.taken
            case Scope(_) => Do(u, n).live == n.live
  {
    hide Valid, Clear;
    match u
    case Whole(body) =>
      DoAllSafe(body, n);
      ClearValid(DoAll(body, n).s, |n.s.taken|);
    case _ =>
  }

  // ----- in place -----------------------------------------------------------

  class SlotAllocator {
    var allocatedSlots: seq<StackSlot>
    var discardedSlots: seq<StackSlot>
    var allocas: nat

    function Slots(): State
      reads this
    {
      State(allocatedSlots, discardedSlots, allocas)
    }

    constructor ()
      ensures Slots() == State([], [], 0)
    {
      allocatedSlots, discardedSlots, allocas := [], [], 0;
    }

    method AllocTemp(llType: nat) returns (alloca: nat)
      modifies this
      ensures Slots() == Alloc(old(Slots()), llType)
      ensures alloca == allocatedSlots[|allocatedSlots| - 1].alloca
    {
      ghost var was := Slots();
      var i := LastDiscarded(llType);
      if i > 0 {
        var slot := discardedSlots[i - 1];
        allocatedSlots := allocatedSlots + [slot];
        discardedSlots := discardedSlots[..i - 1] + discardedSlots[i..];
        alloca := slot.alloca;
      } else {
        allocatedSlots := allocatedSlots + [StackSlot(llType, allocas)];
        alloca := allocas;
        allocas := allocas + 1;
      }
      assert Slots() == Alloc(was, llType);
    }

    // The search of allocTemp: the position behind the slot, or 0.
    method LastDiscarded(llType: nat) returns (i: nat)
      ensures i <= |discardedSlots| && i - 1 == Last(discardedSlots, |discardedSlots|, llType)
    {
      i := |discardedSlots|;
      while i > 0 && discardedSlots[i - 1].llType != llType
        invariant i <= |discardedSlots| && Last(discardedSlots, i, llType) == Last(discardedSlots, |discardedSlots|, llType)
      {
        i := i - 1;
      }
    }

    method ClearTemps(marker: nat)
      modifies this
      ensures Slots() == Clear(old(Slots()), marker)
    {
      while marker < |allocatedSlots|
        invariant Clear(Slots(), marker) == Clear(old(Slots()), marker)
        decreases |allocatedSlots|
      {
        var n := |allocatedSlots| - 1;
        discardedSlots := discardedSlots + [allocatedSlots[n]];
        allocatedSlots := allocatedSlots[..n];
      }
    }
  }
}
