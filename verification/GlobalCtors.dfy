// Global constructors, emitted on demand while the initialisers and functions
// that mention the globals are being compiled.
module GlobalCtors {

  // A global variable or a function.
  datatype Node = Global(id: nat) | Function(id: nat)

  // What a global's initialiser or a function's body mentions, in order, and the
  // function that destroys a global's value.
  datatype Program = Program(mentions: map<Node, seq<Node>>, destroy: map<Node, Node>)

  predicate Closed(p: Program) {
    && (forall n, i :: n in p.mentions && 0 <= i < |p.mentions[n]| ==> p.mentions[n][i] in p.mentions)
    && (forall n: Node :: n in p.mentions && n.Global? ==> n in p.destroy && p.destroy[n].Function? && p.destroy[n] in p.mentions)
  }

  // What the constructor function does: the initialiser of a global uses a
  // global or calls a function, and stores its value.
  datatype Event = Uses(x: Node, d: Node) | Stores(x: Node)

  // seen: globals with storage and functions with code, finished or not.
  datatype State = State(seen: set<Node>, ctor: seq<Event>, initialized: seq<Node>)

  function Left(p: Program, s: State): nat {
    |p.mentions.Keys - s.seen|
  }

  // ----- emission -----------------------------------------------------------

  // A mention of n. The storage of a global, or the function's code, exists from
  // the beginning of its own compilation on.
  function Mention(p: Program, s: State, n: Node): (s': State)
    requires Closed(p) && n in p.mentions
    ensures s.seen <= s'.seen && n in s'.seen
    decreases Left(p, s), 0
  {
    if n in s.seen then s
    else
      FewerLeft(p, s, n);
      var s1 := Body(p, Opened(s, n), n, |p.mentions[n]|);
      LeftShrinks(p, Opened(s, n), s1);
      if n.Global? then Register(p, Happens(s1, Stores(n)), n) else s1
  }

  lemma MentionIs(p: Program, s: State, n: Node, s0: State)
    requires Closed(p) && n in p.mentions && n !in s.seen && s0 == Opened(s, n)
    ensures var s1 := Body(p, s0, n, |p.mentions[n]|);
            Mention(p, s, n) == if n.Global? then Register(p, Happens(s1, Stores(n)), n) else s1
  {
  }

  function Opened(s: State, n: Node): State {
    s.(seen := s.seen + {n})
  }

  function Happens(s: State, e: Event): State {
    s.(ctor := s.ctor + [e])
  }

  // A global that has been stored: the destroy function of its type is compiled
  // before the global is registered.
  function Register(p: Program, s: State, n: Node): (s': State)
    requires Closed(p) && n in p.mentions && n.Global?
    ensures s.seen <= s'.seen
    decreases Left(p, s), 1
  {
    var s' := Mention(p, s, p.destroy[n]);
    s'.(initialized := s'.initialized + [n])
  }

  // The first i mentions in the initialiser or body of n.
  function Body(p: Program, s: State, n: Node, i: nat): (s': State)
    requires Closed(p) && n in p.mentions && i <= |p.mentions[n]|
    ensures s.seen <= s'.seen
    decreases Left(p, s), 1, i
  {
    if i == 0 then s
    else
      var s1 := Body(p, s, n, i - 1);
      LeftShrinks(p, s, s1);
      var s2 := Mention(p, s1, p.mentions[n][i - 1]);
      if n.Global? then Happens(s2, Uses(n, p.mentions[n][i - 1])) else s2
  }

  // One more mention.
  lemma BodyStep(p: Program, s: State, n: Node, i: nat)
    requires Closed(p) && n in p.mentions && i < |p.mentions[n]|
    ensures forall s2, e :: Happens(s2, e).seen == s2.seen && Happens(s2, e).initialized == s2.initialized
    ensures p.mentions[n][i] in p.mentions && Left(p, Body(p, s, n, i)) <= Left(p, s)
    ensures var s2 := Mention(p, Body(p, s, n, i), p.mentions[n][i]);
            Body(p, s, n, i + 1) == if n.Global? then Happens(s2, Uses(n, p.mentions[n][i])) else s2
  {
    LeftShrinks(p, s, Body(p, s, n, i));
  }

  lemma FewerLeft(p: Program, s: State, n: Node)
    requires n in p.mentions && n !in s.seen
    ensures Left(p, Opened(s, n)) < Left(p, s)
  {
    assert p.mentions.Keys - s.seen == (p.mentions.Keys - (s.seen + {n})) + {n};
  }

  lemma LeftShrinks(p: Program, a: State, b: State)
    requires a.seen <= b.seen
    ensures Left(p, b) <= Left(p, a)
  {
    assert p.mentions.Keys - a.seen == (p.mentions.Keys - b.seen) + (p.mentions.Keys * (b.seen - a.seen));
  }

  function Empty(): State { State({}, [], []) }

  predicate Roots(p: Program, roots: seq<Node>) {
    Closed(p) && forall i :: 0 <= i < |roots| ==> roots[i] in p.mentions
  }

  // The entry points of a program, compiled one after another.
  function Emit(p: Program, roots: seq<Node>): State
    requires Roots(p, roots)
  {
    if roots == [] then Empty() else Mention(p, Emit(p, roots[..|roots| - 1]), roots[|roots| - 1])
  }

  // finalizeCtorsDtors: the order of destruction.
  function Reversed(s: seq<Node>): seq<Node> {
    if s == [] then [] else [s[|s| - 1]] + Reversed(s[..|s| - 1])
  }

  // ----- dependency ---------------------------------------------------------

  // a mentions b; or, where destructors count (all), b destroys a.
  predicate Edge(p: Program, a: Node, b: Node, all: bool) {
    a in p.mentions && (b in p.mentions[a] || (all && a.Global? && a in p.destroy && p.destroy[a] == b))
  }

  predicate Path(p: Program, q: seq<Node>, all: bool) {
    q != [] && forall i :: 0 <= i < |q| - 1 ==> Edge(p, q[i], q[i + 1], all)
  }

  // b is a or something a leads to.
  ghost predicate Reaches(p: Program, a: Node, b: Node, all: bool) {
    exists q :: Path(p, q, all) && q[0] == a && q[|q| - 1] == b
  }

  lemma ReachesSelf(p: Program, a: Node, all: bool)
    ensures Reaches(p, a, a, all)
  {
    assert Path(p, [a], all);
  }

  lemma ReachesThen(p: Program, a: Node, b: Node, c: Node, all: bool)
    requires Reaches(p, a, b, all) && Reaches(p, b, c, all)
    ensures Reaches(p, a, c, all)
  {
    var q :| Path(p, q, all) && q[0] == a && q[|q| - 1] == b;
    var r :| Path(p, r, all) && r[0] == b && r[|r| - 1] == c;
    var w := q + r[1..];
    forall i | 0 <= i < |w| - 1 ensures Edge(p, w[i], w[i + 1], all) {
      if i < |q| - 1 {
        assert w[i] == q[i] && w[i + 1] == q[i + 1];
      } else {
        assert w[i] == r[i - (|q| - 1)] && w[i + 1] == r[i + 1 - (|q| - 1)];
      }
    }
    assert Path(p, w, all);
  }

  lemma ReachesStep(p: Program, a: Node, b: Node, all: bool)
    requires Edge(p, a, b, all)
    ensures Reaches(p, a, b, all)
  {
    assert Path(p, [a, b], all);
  }

  lemma ReachesMore(p: Program, a: Node, b: Node)
    requires Reaches(p, a, b, false)
    ensures Reaches(p, a, b, true)
  {
    var q :| Path(p, q, false) && q[0] == a && q[|q| - 1] == b;
    assert Path(p, q, true);
  }

  // A global that leads back to itself. What it leads to first is something its
  // initialiser mentions, or, if first is true, its destroy function.
  ghost predicate Circular(p: Program, x: Node, first: bool, all: bool) {
    x.Global? && exists d :: Edge(p, x, d, first) && Reaches(p, d, x, all)
  }

  // ----- what emission keeps ------------------------------------------------

  // open are the nodes whose initialiser or body is under way, closing the
  // globals whose destroy function is.
  ghost predicate Sound(p: Program, s: State, open: set<Node>, closing: set<Node>) {
    && Closed(p) && open <= s.seen <= p.mentions.Keys && closing <= s.seen - open
    && (forall m, d :: m in s.seen - open && Edge(p, m, d, false) ==> d in s.seen)
    && (forall m: Node :: m in s.seen - open - closing && m.Global? ==> p.destroy[m] in s.seen)
    && (forall x: Node :: x.Global? && x in s.seen - open <==> Stores(x) in s.ctor)
    && (forall x: Node :: x.Global? && x in s.seen - open - closing <==> x in s.initialized)
    && forall x :: x in closing ==> x.Global?
  }

  // Everything under way leads to n.
  ghost predicate LeadsTo(p: Program, busy: set<Node>, n: Node) {
    forall m :: m in busy ==> Reaches(p, m, n, true)
  }

  // Whatever is used at i has been stored before i, and so has everything it
  // mentions in turn.
  ghost predicate UseReady(p: Program, ctor: seq<Event>, i: nat)
    requires i < |ctor|
  {
    ctor[i].Uses? ==> forall z: Node :: z.Global? && Reaches(p, ctor[i].d, z, false) ==> Stores(z) in ctor[..i]
  }

  ghost predicate Ordered(p: Program, ctor: seq<Event>) {
    forall i :: 0 <= i < |ctor| ==> UseReady(p, ctor, i)
  }

  // Of the globals seen, none leads back to itself.
  ghost predicate Acyclic(p: Program, seen: set<Node>, first: bool) {
    forall x :: x in seen ==> !Circular(p, x, first, true)
  }

  // What is reached from a finished node without meeting an open one is finished.
  lemma {:induction false} Finished(p: Program, s: State, open: set<Node>, closing: set<Node>, q: seq<Node>, i: nat)
    requires Sound(p, s, open, closing) && Path(p, q, false) && q[0] in s.seen && i < |q|
    requires forall j :: 0 <= j < |q| ==> q[j] !in open
    ensures q[i] in s.seen - open
  {
    if i > 0 {
      Finished(p, s, open, closing, q, i - 1);
      assert Edge(p, q[i - 1], q[i], false);
    }
  }

  // Nothing under way is met on the way from d, which x leads to, unless x leads
  // back to itself.
  lemma ReachedAreStored(p: Program, s: State, open: set<Node>, closing: set<Node>, x: Node, d: Node, busy: set<Node>)
    requires Sound(p, s, open, closing) && open <= busy && LeadsTo(p, busy, x) && d in s.seen && !Reaches(p, d, x, true)
    ensures forall z: Node :: z.Global? && Reaches(p, d, z, false) ==> Stores(z) in s.ctor && z !in busy
  {
    forall z: Node | z.Global? && Reaches(p, d, z, false) ensures Stores(z) in s.ctor && z !in busy {
      var q :| Path(p, q, false) && q[0] == d && q[|q| - 1] == z;
      forall j | 0 <= j < |q| ensures q[j] !in busy {
        if q[j] in busy {
          assert Path(p, q[..j + 1], false) && q[..j + 1][0] == d && q[..j + 1][j] == q[j];
          ReachesMore(p, d, q[j]);
          ReachesThen(p, d, q[j], x, true);
        }
      }
      Finished(p, s, open, closing, q, |q| - 1);
    }
  }

  lemma OrderedMore(p: Program, ctor: seq<Event>, e: Event)
    requires Ordered(p, ctor)
    requires e.Uses? ==> forall z: Node :: z.Global? && Reaches(p, e.d, z, false) ==> Stores(z) in ctor
    ensures Ordered(p, ctor + [e])
  {
    hide Reaches;
    var more := ctor + [e];
    forall i | 0 <= i < |more| ensures UseReady(p, more, i) {
      if i < |ctor| {
        assert UseReady(p, ctor, i) && more[..i] == ctor[..i];
      } else {
        assert more[..i] == ctor;
      }
    }
  }

  // A stored global has done what its initialiser says, before its store.
  ghost predicate Told(p: Program, s: State, open: set<Node>) {
    && (forall x: Node, d :: x.Global? && x in s.seen - open && Edge(p, x, d, false) ==> Uses(x, d) in s.ctor)
    && (forall i :: 0 <= i < |s.ctor| && s.ctor[i].Uses? ==> Stores(s.ctor[i].x) !in s.ctor[..i])
  }

  lemma {:induction false} MentionSound(p: Program, s: State, open: set<Node>, closing: set<Node>, n: Node)
    requires Sound(p, s, open, closing) && Told(p, s, open) && n in p.mentions
    ensures Sound(p, Mention(p, s, n), open, closing) && Told(p, Mention(p, s, n), open)
    decreases Left(p, s), 0
  {
    hide *;
    ClosedOf(p, s, open, closing);
    if n in s.seen {
      MentionSeen(p, s, n);
    } else {
      var s0 := Opened(s, n);
      var s1 := Body(p, s0, n, |p.mentions[n]|);
      Opens(p, s, open, closing, n);
      BodySound(p, s0, open + {n}, closing, n, |p.mentions[n]|);
      if n.Global? {
        Stored(p, s1, open, closing, n);
        RegisterSound(p, Happens(s1, Stores(n)), open, closing, n);
      } else {
        Compiled(p, s1, open, closing, n);
      }
    }
  }

  lemma MentionSeen(p: Program, s: State, n: Node)
    requires Closed(p) && n in p.mentions && n in s.seen
    ensures Mention(p, s, n) == s
  {
  }

  // The compilation of n begins.
  lemma Opens(p: Program, s: State, open: set<Node>, closing: set<Node>, n: Node)
    requires Sound(p, s, open, closing) && Told(p, s, open) && n in p.mentions && n !in s.seen
    ensures Closed(p) && n !in open && n !in closing
    ensures Sound(p, Opened(s, n), open + {n}, closing) && Told(p, Opened(s, n), open + {n}) && n in Opened(s, n).seen
    ensures Opened(s, n).ctor == s.ctor && Opened(s, n).initialized == s.initialized
    ensures var s1 := Body(p, Opened(s, n), n, |p.mentions[n]|);
            && Left(p, Opened(s, n)) < Left(p, s) && Left(p, s1) < Left(p, s) && Left(p, Happens(s1, Stores(n))) < Left(p, s)
            && n in s1.seen && Happens(s1, Stores(n)).seen == s1.seen
            && Mention(p, s, n) == (if n.Global? then Register(p, Happens(s1, Stores(n)), n) else s1)
  {
    FewerLeft(p, s, n);
    assert Opened(s, n).seen - (open + {n}) == s.seen - open;
    LeftShrinks(p, Opened(s, n), Body(p, Opened(s, n), n, |p.mentions[n]|));
  }

  // The body of a function is over.
  lemma Compiled(p: Program, s: State, open: set<Node>, closing: set<Node>, n: Node)
    requires Sound(p, s, open + {n}, closing) && Told(p, s, open + {n}) && n in p.mentions && n.Function? && n !in open
    requires Mentioned(p, s, n, |p.mentions[n]|)
    ensures Sound(p, s, open, closing) && Told(p, s, open)
  {
    assert s.seen - open == (s.seen - (open + {n})) + {n};
  }

  // The initialiser of n is over.
  lemma Stored(p: Program, s: State, open: set<Node>, closing: set<Node>, n: Node)
    requires Sound(p, s, open + {n}, closing) && Told(p, s, open + {n}) && n in p.mentions && n.Global? && n !in open
    requires Mentioned(p, s, n, |p.mentions[n]|)
    ensures Sound(p, Happens(s, Stores(n)), open, closing + {n}) && Told(p, Happens(s, Stores(n)), open)
  {
    ToldMore(p, s, open + {n}, Stores(n));
    assert s.seen - open == (s.seen - (open + {n})) + {n};
    assert s.seen - open - (closing + {n}) == s.seen - (open + {n}) - closing;
  }

  lemma {:induction false} RegisterSound(p: Program, s: State, open: set<Node>, closing: set<Node>, n: Node)
    requires Sound(p, s, open, closing + {n}) && Told(p, s, open) && n in p.mentions && n.Global? && n !in closing
    ensures Sound(p, Register(p, s, n), open, closing) && Told(p, Register(p, s, n), open)
    decreases Left(p, s), 1
  {
    MentionSound(p, s, open, closing + {n}, p.destroy[n]);
    var s' := Mention(p, s, p.destroy[n]);
    assert s'.seen - open - closing == (s'.seen - open - (closing + {n})) + {n};
  }

  lemma ToldMore(p: Program, s: State, open: set<Node>, e: Event)
    requires Told(p, s, open) && (e.Uses? ==> Stores(e.x) !in s.ctor)
    ensures Told(p, Happens(s, e), open)
  {
    var more := s.ctor + [e];
    forall i | 0 <= i < |more| && more[i].Uses? ensures Stores(more[i].x) !in more[..i] {
      if i < |s.ctor| { assert more[..i] == s.ctor[..i]; } else { assert more[..i] == s.ctor; }
    }
  }

  lemma {:induction false} BodySound(p: Program, s: State, open: set<Node>, closing: set<Node>, n: Node, i: nat)
    requires Sound(p, s, open, closing) && Told(p, s, open) && n in open && n in p.mentions && i <= |p.mentions[n]|
    ensures Closed(p) && var s' := Body(p, s, n, i);
            Sound(p, s', open, closing) && Told(p, s', open) && s.ctor <= s'.ctor && Mentioned(p, s', n, i)
    decreases Left(p, s), 1, i
  {
    hide *;
    ClosedOf(p, s, open, closing);
    if i == 0 {
      NothingMentioned(p, s, n);
    } else {
      BodyStep(p, s, n, i - 1);
      BodySound(p, s, open, closing, n, i - 1);
      OneSound(p, s, Body(p, s, n, i - 1), open, closing, n, i);
    }
  }

  lemma ClosedOf(p: Program, s: State, open: set<Node>, closing: set<Node>)
    requires Sound(p, s, open, closing)
    ensures Closed(p)
  {
  }

  lemma {:induction false} OneSound(p: Program, s: State, s1: State, open: set<Node>, closing: set<Node>, n: Node, i: nat)
    requires Closed(p) && n in open && n in p.mentions && 0 < i <= |p.mentions[n]| && p.mentions[n][i - 1] in p.mentions
    requires s1 == Body(p, s, n, i - 1) && Sound(p, s1, open, closing) && Told(p, s1, open) && s.ctor <= s1.ctor && Mentioned(p, s1, n, i - 1)
    ensures var s2 := Mention(p, s1, p.mentions[n][i - 1]);
            var s' := if n.Global? then Happens(s2, Uses(n, p.mentions[n][i - 1])) else s2;
            Sound(p, s', open, closing) && Told(p, s', open) && s.ctor <= s'.ctor && Mentioned(p, s', n, i)
    decreases Left(p, s1), 1, 0
  {
    hide *;
    var d := p.mentions[n][i - 1];
    MentionSound(p, s1, open, closing, d);
    var s2 := Mention(p, s1, d);
    CtorGrows(p, s1, d);
    if n.Global? {
      UseSound(p, s2, open, closing, n, d);
      UseHappens(s.ctor, s1.ctor, s2, Uses(n, d));
      MentionedMore(p, s1, Happens(s2, Uses(n, d)), n, i - 1);
    } else {
      MentionedMore(p, s1, s2, n, i - 1);
    }
  }

  lemma CtorGrows(p: Program, s: State, n: Node)
    requires Closed(p) && n in p.mentions
    ensures s.ctor <= Mention(p, s, n).ctor
  {
    MentionGrows(p, s, n);
  }

  lemma UseHappens(a: seq<Event>, b: seq<Event>, s: State, e: Event)
    requires a <= b <= s.ctor
    ensures a <= Happens(s, e).ctor && b <= Happens(s, e).ctor && e in Happens(s, e).ctor && Happens(s, e).seen == s.seen
  {
  }

  // The first i mentions of n have been seen to.
  ghost predicate Mentioned(p: Program, s: State, n: Node, i: nat)
    requires n in p.mentions && i <= |p.mentions[n]|
  {
    forall j :: 0 <= j < i ==> p.mentions[n][j] in s.seen && (n.Global? ==> Uses(n, p.mentions[n][j]) in s.ctor)
  }

  lemma NothingMentioned(p: Program, s: State, n: Node)
    requires n in p.mentions
    ensures Mentioned(p, s, n, 0) && (Closed(p) ==> Body(p, s, n, 0) == s)
  {
  }

  lemma MentionedMore(p: Program, s: State, s': State, n: Node, i: nat)
    requires n in p.mentions && i < |p.mentions[n]| && Mentioned(p, s, n, i) && s.seen <= s'.seen && s.ctor <= s'.ctor
    requires p.mentions[n][i] in s'.seen && (n.Global? ==> Uses(n, p.mentions[n][i]) in s'.ctor)
    ensures Mentioned(p, s', n, i + 1)
  {
    forall j | 0 <= j < i && n.Global? ensures Uses(n, p.mentions[n][j]) in s'.ctor {
      assert Uses(n, p.mentions[n][j]) in s.ctor;
    }
  }

  lemma UseSound(p: Program, s: State, open: set<Node>, closing: set<Node>, x: Node, d: Node)
    requires Sound(p, s, open, closing) && Told(p, s, open) && x in open && x.Global?
    ensures Sound(p, Happens(s, Uses(x, d)), open, closing) && Told(p, Happens(s, Uses(x, d)), open)
  {
    ToldMore(p, s, open, Uses(x, d));
  }

  // Events and registrations are only ever appended.
  predicate Grows(a: State, b: State) {
    a.ctor <= b.ctor && a.initialized <= b.initialized
  }

  lemma {:induction false} MentionGrows(p: Program, s: State, n: Node)
    requires Closed(p) && n in p.mentions
    ensures Grows(s, Mention(p, s, n))
    decreases Left(p, s), 0
  {
    if n !in s.seen {
      FewerLeft(p, s, n);
      BodyGrows(p, Opened(s, n), n, |p.mentions[n]|);
      var s1 := Body(p, Opened(s, n), n, |p.mentions[n]|);
      LeftShrinks(p, Opened(s, n), s1);
      if n.Global? { MentionGrows(p, Happens(s1, Stores(n)), p.destroy[n]); }
    }
  }

  lemma {:induction false} BodyGrows(p: Program, s: State, n: Node, i: nat)
    requires Closed(p) && n in p.mentions && i <= |p.mentions[n]|
    ensures Grows(s, Body(p, s, n, i))
    decreases Left(p, s), 1, i
  {
    if i > 0 {
      BodyGrows(p, s, n, i - 1);
      LeftShrinks(p, s, Body(p, s, n, i - 1));
      MentionGrows(p, Body(p, s, n, i - 1), p.mentions[n][i - 1]);
    }
  }

  // ----- the order of initialisation ----------------------------------------

  lemma {:induction false} MentionOrdered(p: Program, s: State, open: set<Node>, closing: set<Node>, n: Node)
    requires Sound(p, s, open, closing) && Told(p, s, open) && n in p.mentions && LeadsTo(p, open, n) && Ordered(p, s.ctor)
    requires Acyclic(p, Mention(p, s, n).seen, false)
    ensures Ordered(p, Mention(p, s, n).ctor)
    decreases Left(p, s), 0
  {
    hide *;
    ClosedOf(p, s, open, closing);
    if n in s.seen {
      MentionSeen(p, s, n);
    } else {
      var s0 := Opened(s, n);
      var s1 := Body(p, s0, n, |p.mentions[n]|);
      var s2 := Happens(s1, Stores(n));
      Opens(p, s, open, closing, n);
      FewerCircular(p, s1.seen, Mention(p, s, n).seen, false);
      LeadsItself(p, open, n);
      BodyOrdered(p, s0, open + {n}, closing, n, |p.mentions[n]|);
      if n.Global? {
        BodySound(p, s0, open + {n}, closing, n, |p.mentions[n]|);
        Stored(p, s1, open, closing, n);
        OrderedMore(p, s1.ctor, Stores(n));
        LeadsOn(p, open, n, s1.ctor);
        Registers(p, s2, n);
        MentionOrdered(p, s2, open, closing + {n}, p.destroy[n]);
      }
    }
  }

  lemma LeadsItself(p: Program, busy: set<Node>, n: Node)
    requires LeadsTo(p, busy, n)
    ensures LeadsTo(p, busy + {n}, n)
  {
    hide Reaches;
    ReachesSelf(p, n, true);
  }

  lemma LeadsOn(p: Program, busy: set<Node>, n: Node, ctor: seq<Event>)
    requires Closed(p) && n in p.mentions && n.Global? && LeadsTo(p, busy, n)
    ensures p.destroy[n] in p.mentions && LeadsTo(p, busy, p.destroy[n])
    ensures forall s: State, e :: s.ctor == ctor ==> Happens(s, e).ctor == ctor + [e]
  {
    LeadsFurther(p, busy, n, p.destroy[n]);
  }

  lemma Registers(p: Program, s: State, n: Node)
    requires Closed(p) && n in p.mentions && n.Global?
    ensures var s' := Mention(p, s, p.destroy[n]);
            && Register(p, s, n).ctor == s'.ctor && Register(p, s, n).seen == s'.seen
            && Register(p, s, n).initialized == s'.initialized + [n]
  {
  }

  lemma {:induction false} BodyOrdered(p: Program, s: State, open: set<Node>, closing: set<Node>, n: Node, i: nat)
    requires Sound(p, s, open, closing) && Told(p, s, open) && n in open && n in p.mentions && i <= |p.mentions[n]|
    requires LeadsTo(p, open, n) && Ordered(p, s.ctor)
    requires Acyclic(p, Body(p, s, n, i).seen, false)
    ensures Ordered(p, Body(p, s, n, i).ctor)
    decreases Left(p, s), 1, i
  {
    hide *;
    ClosedOf(p, s, open, closing);
    if i == 0 {
      NothingMentioned(p, s, n);
    } else {
      var d := p.mentions[n][i - 1];
      BodyStep(p, s, n, i - 1);
      var s1 := Body(p, s, n, i - 1);
      var s2 := Mention(p, s1, d);
      FewerCircular(p, s1.seen, Body(p, s, n, i).seen, false);
      FewerCircular(p, s2.seen, Body(p, s, n, i).seen, false);
      BodyOrdered(p, s, open, closing, n, i - 1);
      BodySound(p, s, open, closing, n, i - 1);
      LeadsFurther(p, open, n, d) by { MentionsEdge(p, n, i - 1); }
      MentionOrdered(p, s1, open, closing, d);
      MentionSound(p, s1, open, closing, d);
      if n.Global? { UseOrdered(p, s2, open, closing, n, i - 1); }
    }
  }

  lemma MentionsEdge(p: Program, n: Node, i: nat)
    requires n in p.mentions && i < |p.mentions[n]|
    ensures Edge(p, n, p.mentions[n][i], false) && Edge(p, n, p.mentions[n][i], true)
  {
  }

  lemma FewerCircular(p: Program, a: set<Node>, b: set<Node>, first: bool)
    requires Acyclic(p, b, first) && a <= b
    ensures Acyclic(p, a, first)
  {
    hide Circular;
  }

  lemma UseOrdered(p: Program, s: State, open: set<Node>, closing: set<Node>, n: Node, i: nat)
    requires Sound(p, s, open, closing) && n in open && n in p.mentions && i < |p.mentions[n]| && p.mentions[n][i] in s.seen && n.Global?
    requires LeadsTo(p, open, n) && Ordered(p, s.ctor) && Acyclic(p, s.seen, false)
    ensures Ordered(p, Happens(s, Uses(n, p.mentions[n][i])).ctor)
  {
    hide Reaches, Ordered, LeadsTo;
    var d := p.mentions[n][i];
    MentionsEdge(p, n, i);
    assert !Circular(p, n, false, true);
    ReachedAreStored(p, s, open, closing, n, d, open);
    OrderedMore(p, s.ctor, Uses(n, d));
  }

  lemma LeadsFurther(p: Program, busy: set<Node>, n: Node, d: Node)
    requires LeadsTo(p, busy, n) && Edge(p, n, d, true)
    ensures LeadsTo(p, busy, d)
  {
    hide Reaches;
    ReachesStep(p, n, d, true);
    forall m | m in busy ensures Reaches(p, m, d, true) { ReachesThen(p, m, n, d, true); }
  }

  // ----- the order of destruction -------------------------------------------

  // Every global that the destroy function of initialized[i] leads to has been
  // registered before, and is therefore destroyed later.
  ghost predicate OutlivedAt(p: Program, initialized: seq<Node>, i: nat)
    requires i < |initialized|
  {
    initialized[i] in p.destroy &&
    forall z: Node :: z.Global? && Reaches(p, p.destroy[initialized[i]], z, false) ==> z in initialized[..i]
  }

  ghost predicate Outlived(p: Program, initialized: seq<Node>) {
    forall i :: 0 <= i < |initialized| ==> OutlivedAt(p, initialized, i)
  }

  lemma OutlivedMore(p: Program, initialized: seq<Node>, x: Node)
    requires Outlived(p, initialized) && x in p.destroy
    requires forall z: Node :: z.Global? && Reaches(p, p.destroy[x], z, false) ==> z in initialized
    ensures Outlived(p, initialized + [x])
  {
    hide Reaches;
    var more := initialized + [x];
    forall i | 0 <= i < |more| ensures OutlivedAt(p, more, i) {
      if i < |initialized| {
        assert OutlivedAt(p, initialized, i) && more[..i] == initialized[..i];
      } else {
        assert more[..i] == initialized;
      }
    }
  }

  lemma {:induction false} MentionOutlived(p: Program, s: State, open: set<Node>, closing: set<Node>, n: Node)
    requires Sound(p, s, open, closing) && Told(p, s, open) && n in p.mentions && LeadsTo(p, open + closing, n)
    requires Outlived(p, s.initialized) && Acyclic(p, Mention(p, s, n).seen, true)
    ensures Outlived(p, Mention(p, s, n).initialized)
    decreases Left(p, s), 0
  {
    hide *;
    ClosedOf(p, s, open, closing);
    if n in s.seen {
      MentionSeen(p, s, n);
    } else {
      var s0 := Opened(s, n);
      var s1 := Body(p, s0, n, |p.mentions[n]|);
      Opens(p, s, open, closing, n);
      FewerCircular(p, s1.seen, Mention(p, s, n).seen, true);
      LeadsItself(p, open + closing, n);
      assert open + {n} + closing == open + closing + {n};
      BodyOutlived(p, s0, open + {n}, closing, n, |p.mentions[n]|);
      if n.Global? {
        BodySound(p, s0, open + {n}, closing, n, |p.mentions[n]|);
        Stored(p, s1, open, closing, n);
        StoreRegisters(s1, n);
        RegisterOutlived(p, Happens(s1, Stores(n)), open, closing, n);
      }
    }
  }

  lemma StoreRegisters(s: State, n: Node)
    ensures Happens(s, Stores(n)).initialized == s.initialized
  {
  }

  lemma {:induction false} RegisterOutlived(p: Program, s: State, open: set<Node>, closing: set<Node>, n: Node)
    requires Sound(p, s, open, closing + {n}) && Told(p, s, open) && n in p.mentions && n.Global? && n !in closing && n in s.seen
    requires LeadsTo(p, open + closing, n) && Outlived(p, s.initialized) && Acyclic(p, Register(p, s, n).seen, true)
    ensures Outlived(p, Register(p, s, n).initialized)
    decreases Left(p, s), 1
  {
    hide *;
    ClosedOf(p, s, open, closing + {n});
    Registers(p, s, n);
    LeadsItself(p, open + closing, n);
    var busy := open + (closing + {n});
    assert busy == open + closing + {n};
    LeadsOn(p, busy, n, s.ctor);
    MentionOutlived(p, s, open, closing + {n}, p.destroy[n]);
    MentionSound(p, s, open, closing + {n}, p.destroy[n]);
    LastOutlived(p, Mention(p, s, p.destroy[n]), open, closing + {n}, n);
  }

  // What n's destroy function leads to has been registered.
  lemma LastOutlived(p: Program, s: State, open: set<Node>, closing: set<Node>, n: Node)
    requires Sound(p, s, open, closing) && n in p.mentions && n.Global? && n in s.seen && p.destroy[n] in s.seen
    requires LeadsTo(p, open + closing, n) && Outlived(p, s.initialized) && Acyclic(p, s.seen, true)
    ensures Outlived(p, s.initialized + [n])
  {
    hide Reaches, Outlived, LeadsTo;
    assert !Circular(p, n, true, true);
    ReachedAreStored(p, s, open, closing, n, p.destroy[n], open + closing);
    OutlivedMore(p, s.initialized, n);
  }

  lemma {:induction false} BodyOutlived(p: Program, s: State, open: set<Node>, closing: set<Node>, n: Node, i: nat)
    requires Sound(p, s, open, closing) && Told(p, s, open) && n in open && n in p.mentions && i <= |p.mentions[n]|
    requires LeadsTo(p, open + closing, n) && Outlived(p, s.initialized)
    requires Acyclic(p, Body(p, s, n, i).seen, true)
    ensures Outlived(p, Body(p, s, n, i).initialized)
    decreases Left(p, s), 1, i
  {
    hide *;
    ClosedOf(p, s, open, closing);
    if i == 0 {
      NothingMentioned(p, s, n);
    } else {
      var d := p.mentions[n][i - 1];
      BodyStep(p, s, n, i - 1);
      var s1 := Body(p, s, n, i - 1);
      var s2 := Mention(p, s1, d);
      FewerCircular(p, s1.seen, Body(p, s, n, i).seen, true);
      FewerCircular(p, s2.seen, Body(p, s, n, i).seen, true);
      BodyOutlived(p, s, open, closing, n, i - 1);
      BodySound(p, s, open, closing, n, i - 1);
      LeadsFurther(p, open + closing, n, d) by { MentionsEdge(p, n, i - 1); }
      MentionOutlived(p, s1, open, closing, d);
    }
  }

  // ----- each global once ---------------------------------------------------

  predicate NoRepeats(s: seq<Node>) {
    forall i, j :: 0 <= i < j < |s| ==> s[i] != s[j]
  }

  lemma NoRepeatsMore(s: seq<Node>, n: Node)
    requires NoRepeats(s) && n !in s
    ensures NoRepeats(s + [n])
  {
  }

  // The globals in the order of their stores.
  function StoresOf(ctor: seq<Event>): seq<Node> {
    if ctor == [] then []
    else StoresOf(ctor[..|ctor| - 1]) + if ctor[|ctor| - 1].Stores? then [ctor[|ctor| - 1].x] else []
  }

  lemma StoresOfMore(ctor: seq<Event>, e: Event)
    ensures StoresOf(ctor + [e]) == StoresOf(ctor) + if e.Stores? then [e.x] else []
  {
    assert (ctor + [e])[..|ctor|] == ctor;
  }

  lemma {:induction false} StoresOfAll(ctor: seq<Event>, x: Node)
    ensures x in StoresOf(ctor) <==> Stores(x) in ctor
  {
    if ctor != [] {
      StoresOfAll(ctor[..|ctor| - 1], x);
      assert ctor == ctor[..|ctor| - 1] + [ctor[|ctor| - 1]];
    }
  }

  // A global is stored and registered once.
  predicate OnceEach(s: State) {
    NoRepeats(StoresOf(s.ctor)) && NoRepeats(s.initialized)
  }

  lemma {:induction false} MentionOnce(p: Program, s: State, open: set<Node>, closing: set<Node>, n: Node)
    requires Sound(p, s, open, closing) && Told(p, s, open) && n in p.mentions && OnceEach(s)
    ensures OnceEach(Mention(p, s, n))
    decreases Left(p, s), 0
  {
    hide NoRepeats;
    if n !in s.seen {
      FewerLeft(p, s, n);
      var s0 := Opened(s, n);
      assert s0.seen - (open + {n}) == s.seen - open;
      BodyOnce(p, s0, open + {n}, closing, n, |p.mentions[n]|);
      BodySound(p, s0, open + {n}, closing, n, |p.mentions[n]|);
      var s1 := Body(p, s0, n, |p.mentions[n]|);
      LeftShrinks(p, s0, s1);
      if n.Global? {
        StoresOfAll(s1.ctor, n);
        StoresOfMore(s1.ctor, Stores(n));
        NoRepeatsMore(StoresOf(s1.ctor), n);
        Stored(p, s1, open, closing, n);
        var s2 := Happens(s1, Stores(n));
        MentionOnce(p, s2, open, closing + {n}, p.destroy[n]);
        MentionSound(p, s2, open, closing + {n}, p.destroy[n]);
        NoRepeatsMore(Mention(p, s2, p.destroy[n]).initialized, n);
      }
    }
  }

  lemma {:induction false} BodyOnce(p: Program, s: State, open: set<Node>, closing: set<Node>, n: Node, i: nat)
    requires Sound(p, s, open, closing) && Told(p, s, open) && n in open && n in p.mentions && i <= |p.mentions[n]| && OnceEach(s)
    ensures OnceEach(Body(p, s, n, i))
    decreases Left(p, s), 1, i
  {
    hide *;
    ClosedOf(p, s, open, closing);
    if i == 0 {
      NothingMentioned(p, s, n);
    } else {
      var d := p.mentions[n][i - 1];
      BodyStep(p, s, n, i - 1);
      BodyOnce(p, s, open, closing, n, i - 1);
      BodySound(p, s, open, closing, n, i - 1);
      var s1 := Body(p, s, n, i - 1);
      MentionOnce(p, s1, open, closing, d);
      UseOnce(Mention(p, s1, d), n, d);
    }
  }

  lemma UseOnce(s: State, x: Node, d: Node)
    requires OnceEach(s)
    ensures OnceEach(Happens(s, Uses(x, d)))
  {
    StoresOfMore(s.ctor, Uses(x, d));
    assert StoresOf(s.ctor) + [] == StoresOf(s.ctor);
  }

  // ----- stores and registrations -------------------------------------------

  // The destroy function of n's type is the first to lead to some global.
  ghost predicate Late(p: Program, s: State, n: Node)
    requires Closed(p) && n in p.mentions && n.Global?
  {
    exists g: Node :: g.Global? && g !in s.seen && g in Mention(p, s, p.destroy[n]).seen
  }

  // While n is compiled, some global's destroy function is the first to lead to
  // a global.
  ghost predicate LateIn(p: Program, s: State, n: Node)
    requires Closed(p) && n in p.mentions
    decreases Left(p, s), 0
  {
    n !in s.seen &&
    (FewerLeft(p, s, n);
     var s1 := Body(p, Opened(s, n), n, |p.mentions[n]|);
     LateInBody(p, Opened(s, n), n, |p.mentions[n]|) || (n.Global? && Late(p, Happens(s1, Stores(n)), n)))
  }

  ghost predicate LateInBody(p: Program, s: State, n: Node, i: nat)
    requires Closed(p) && n in p.mentions && i <= |p.mentions[n]|
    decreases Left(p, s), 1, i
  {
    i > 0 &&
    (LateInBody(p, s, n, i - 1) ||
     (LeftShrinks(p, s, Body(p, s, n, i - 1));
      LateIn(p, Body(p, s, n, i - 1), p.mentions[n][i - 1])))
  }

  ghost predicate LateInRoots(p: Program, roots: seq<Node>)
    requires Roots(p, roots)
  {
    roots != [] && (LateInRoots(p, roots[..|roots| - 1]) || LateIn(p, Emit(p, roots[..|roots| - 1]), roots[|roots| - 1]))
  }

  // Registrations in the order of the stores.
  predicate InStep(s: State) {
    s.initialized == StoresOf(s.ctor)
  }

  // x is stored before g, and g registered before x.
  ghost predicate Crossed(s: State) {
    exists i, k :: 0 <= i < |StoresOf(s.ctor)| && 0 <= k < |s.initialized| && Crosses(s, i, k)
  }

  predicate Crosses(s: State, i: nat, k: nat)
    requires i < |StoresOf(s.ctor)| && k < |s.initialized|
  {
    var x, g := StoresOf(s.ctor)[i], s.initialized[k];
    x != g && g !in StoresOf(s.ctor)[..i] && x !in s.initialized[..k]
  }

  lemma CrossedOutOfStep(s: State)
    requires Crossed(s)
    ensures !InStep(s)
  {
    var i, k :| 0 <= i < |StoresOf(s.ctor)| && 0 <= k < |s.initialized| && Crosses(s, i, k);
    assert i < k ==> s.initialized[..k][i] == s.initialized[i];
    assert k < i ==> StoresOf(s.ctor)[..i][k] == StoresOf(s.ctor)[k];
  }

  lemma {:induction false} StoresOfGrows(a: seq<Event>, b: seq<Event>)
    requires a <= b
    ensures StoresOf(a) <= StoresOf(b)
  {
    if a != b { StoresOfGrows(a, b[..|b| - 1]); }
  }

  lemma CrossedStays(s: State, s': State)
    requires Crossed(s) && Grows(s, s')
    ensures Crossed(s')
  {
    StoresOfGrows(s.ctor, s'.ctor);
    var i, k :| 0 <= i < |StoresOf(s.ctor)| && 0 <= k < |s.initialized| && Crosses(s, i, k);
    assert StoresOf(s'.ctor)[..i] == StoresOf(s.ctor)[..i] && s'.initialized[..k] == s.initialized[..k];
    assert Crosses(s', i, k);
  }

  lemma {:induction false} LateCrosses(p: Program, s: State, open: set<Node>, closing: set<Node>, n: Node)
    requires Sound(p, s, open, closing) && Told(p, s, open) && n in p.mentions && LateIn(p, s, n)
    ensures Crossed(Mention(p, s, n))
    decreases Left(p, s), 0
  {
    FewerLeft(p, s, n);
    var s0, k := Opened(s, n), |p.mentions[n]|;
    assert s0.seen - (open + {n}) == s.seen - open;
    assert n !in open;
    BodySound(p, s0, open + {n}, closing, n, k);
    var s1 := Body(p, s0, n, k);
    LeftShrinks(p, s0, s1);
    hide Sound, Told, Crossed, Late;
    if LateInBody(p, s0, n, k) {
      LateBodyCrosses(p, s0, open + {n}, closing, n, k);
      if n.Global? { RegisterGrows(p, s1, n); }
      CrossedStays(s1, Mention(p, s, n));
    } else {
      var s2 := Happens(s1, Stores(n));
      Stored(p, s1, open, closing, n);
      LateStored(p, s2, open, closing, n);
      CrossedStays(Mention(p, s2, p.destroy[n]), Register(p, s2, n));
    }
  }

  lemma RegisterGrows(p: Program, s: State, n: Node)
    requires Closed(p) && n in p.mentions && n.Global?
    ensures Grows(s, Register(p, Happens(s, Stores(n)), n))
  {
    MentionGrows(p, Happens(s, Stores(n)), p.destroy[n]);
  }

  // n has been stored; its destroy function leads to a new global.
  lemma LateStored(p: Program, s: State, open: set<Node>, closing: set<Node>, n: Node)
    requires Sound(p, s, open, closing + {n}) && Told(p, s, open) && n in p.mentions && n.Global? && n !in open && Late(p, s, n)
    ensures Crossed(Mention(p, s, p.destroy[n]))
  {
    var s' := Mention(p, s, p.destroy[n]);
    MentionSound(p, s, open, closing + {n}, p.destroy[n]);
    MentionGrows(p, s, p.destroy[n]);
    var g: Node :| g.Global? && g !in s.seen && g in s'.seen;
    StoresOfGrows(s.ctor, s'.ctor);
    StoresOfAll(s.ctor, n);
    StoresOfAll(s.ctor, g);
    assert n in s.seen;
    var i :| 0 <= i < |StoresOf(s.ctor)| && StoresOf(s.ctor)[i] == n;
    var k :| 0 <= k < |s'.initialized| && s'.initialized[k] == g;
    assert StoresOf(s'.ctor)[..i] == StoresOf(s.ctor)[..i];
    assert n !in s'.initialized;
    assert Crosses(s', i, k);
  }

  lemma {:induction false} LateBodyCrosses(p: Program, s: State, open: set<Node>, closing: set<Node>, n: Node, i: nat)
    requires Sound(p, s, open, closing) && Told(p, s, open) && n in open && n in p.mentions && i <= |p.mentions[n]| && LateInBody(p, s, n, i)
    ensures Crossed(Body(p, s, n, i))
    decreases Left(p, s), 1, i
  {
    assert Closed(p);
    var d := p.mentions[n][i - 1];
    LateSplit(p, s, n, i);
    BodyStep(p, s, n, i - 1);
    hide *;
    BodySound(p, s, open, closing, n, i - 1);
    var s1 := Body(p, s, n, i - 1);
    if LateInBody(p, s, n, i - 1) {
      LateBodyCrosses(p, s, open, closing, n, i - 1);
    } else {
      LateCrosses(p, s1, open, closing, d);
    }
    StepGrows(p, s, n, i);
    if LateInBody(p, s, n, i - 1) { CrossedStays(s1, Body(p, s, n, i)); } else { CrossedStays(Mention(p, s1, d), Body(p, s, n, i)); }
  }

  lemma LateSplit(p: Program, s: State, n: Node, i: nat)
    requires Closed(p) && n in p.mentions && i <= |p.mentions[n]| && LateInBody(p, s, n, i)
    ensures i > 0 && p.mentions[n][i - 1] in p.mentions
    ensures LateInBody(p, s, n, i - 1) || LateIn(p, Body(p, s, n, i - 1), p.mentions[n][i - 1])
  {
  }

  lemma StepGrows(p: Program, s: State, n: Node, i: nat)
    requires Closed(p) && n in p.mentions && 0 < i <= |p.mentions[n]| && p.mentions[n][i - 1] in p.mentions
    ensures var s1 := Body(p, s, n, i - 1);
            Grows(s1, Body(p, s, n, i)) && Grows(Mention(p, s1, p.mentions[n][i - 1]), Body(p, s, n, i))
  {
    MentionGrows(p, Body(p, s, n, i - 1), p.mentions[n][i - 1]);
  }

  // No global is new: nothing is stored or registered.
  lemma {:induction false} NoneNew(p: Program, s: State, n: Node)
    requires Closed(p) && n in p.mentions
    requires forall g: Node :: g.Global? && g in Mention(p, s, n).seen ==> g in s.seen
    ensures Mention(p, s, n).ctor == s.ctor && Mention(p, s, n).initialized == s.initialized
    decreases Left(p, s), 0
  {
    if n !in s.seen {
      assert n.Function?;
      FewerLeft(p, s, n);
      NoneNewBody(p, Opened(s, n), n, |p.mentions[n]|);
    }
  }

  lemma {:induction false} NoneNewBody(p: Program, s: State, n: Node, i: nat)
    requires Closed(p) && n in p.mentions && n.Function? && i <= |p.mentions[n]|
    requires forall g: Node :: g.Global? && g in Body(p, s, n, i).seen ==> g in s.seen
    ensures Body(p, s, n, i).ctor == s.ctor && Body(p, s, n, i).initialized == s.initialized
    decreases Left(p, s), 1, i
  {
    if i > 0 {
      var s1 := Body(p, s, n, i - 1);
      LeftShrinks(p, s, s1);
      assert s1.seen <= Mention(p, s1, p.mentions[n][i - 1]).seen;
      NoneNewBody(p, s, n, i - 1);
      NoneNew(p, s1, p.mentions[n][i - 1]);
    }
  }

  lemma {:induction false} NotLateInStep(p: Program, s: State, n: Node)
    requires Closed(p) && n in p.mentions && InStep(s) && !LateIn(p, s, n)
    ensures InStep(Mention(p, s, n))
    decreases Left(p, s), 0
  {
    if n !in s.seen {
      FewerLeft(p, s, n);
      var s0, k := Opened(s, n), |p.mentions[n]|;
      NotLateBody(p, s0, n, k);
      var s1 := Body(p, s0, n, k);
      if n.Global? {
        var s2 := Happens(s1, Stores(n));
        assert !Late(p, s2, n);
        NoneNew(p, s2, p.destroy[n]);
        StoresOfMore(s1.ctor, Stores(n));
      }
    }
  }

  lemma {:induction false} NotLateBody(p: Program, s: State, n: Node, i: nat)
    requires Closed(p) && n in p.mentions && i <= |p.mentions[n]| && InStep(s) && !LateInBody(p, s, n, i)
    ensures InStep(Body(p, s, n, i))
    decreases Left(p, s), 1, i
  {
    if i > 0 {
      var s1, d := Body(p, s, n, i - 1), p.mentions[n][i - 1];
      LeftShrinks(p, s, s1);
      NotLateBody(p, s, n, i - 1);
      NotLateInStep(p, s1, d);
      StoresOfMore(Mention(p, s1, d).ctor, Uses(n, d));
    }
  }

  // ----- whole programs -----------------------------------------------------

  lemma {:induction false} EmitSound(p: Program, roots: seq<Node>)
    requires Roots(p, roots)
    ensures Sound(p, Emit(p, roots), {}, {}) && Told(p, Emit(p, roots), {}) && OnceEach(Emit(p, roots))
  {
    if roots != [] {
      var before := roots[..|roots| - 1];
      EmitSound(p, before);
      MentionSound(p, Emit(p, before), {}, {}, roots[|roots| - 1]);
      MentionOnce(p, Emit(p, before), {}, {}, roots[|roots| - 1]);
    }
  }

  lemma {:induction false} EmitOrdered(p: Program, roots: seq<Node>)
    requires Roots(p, roots) && Acyclic(p, Emit(p, roots).seen, false)
    ensures Ordered(p, Emit(p, roots).ctor)
  {
    hide Reaches, Circular;
    if roots != [] {
      EmitOrdered(p, roots[..|roots| - 1]);
      EmitSound(p, roots[..|roots| - 1]);
      MentionOrdered(p, Emit(p, roots[..|roots| - 1]), {}, {}, roots[|roots| - 1]);
    }
  }

  lemma {:induction false} EmitOutlived(p: Program, roots: seq<Node>)
    requires Roots(p, roots) && Acyclic(p, Emit(p, roots).seen, true)
    ensures Outlived(p, Emit(p, roots).initialized)
  {
    hide Reaches, Circular;
    if roots != [] {
      EmitOutlived(p, roots[..|roots| - 1]);
      EmitSound(p, roots[..|roots| - 1]);
      MentionOutlived(p, Emit(p, roots[..|roots| - 1]), {}, {}, roots[|roots| - 1]);
    }
  }

  // What the roots lead to, by mentions and destroy functions.
  ghost predicate Reached(p: Program, roots: seq<Node>, n: Node) {
    exists i :: 0 <= i < |roots| && Reaches(p, roots[i], n, true)
  }

  lemma {:induction false} SeenFrom(p: Program, s: State, n: Node, m: Node)
    requires Closed(p) && n in p.mentions && m in Mention(p, s, n).seen && m !in s.seen
    ensures Reaches(p, n, m, true)
    decreases Left(p, s), 0
  {
    hide Reaches;
    ReachesSelf(p, n, true);
    if m != n {
      FewerLeft(p, s, n);
      var s0 := Opened(s, n);
      var s1 := Body(p, s0, n, |p.mentions[n]|);
      LeftShrinks(p, s0, s1);
      if m in s1.seen {
        SeenFromBody(p, s0, n, |p.mentions[n]|, m);
      } else {
        SeenFrom(p, Happens(s1, Stores(n)), p.destroy[n], m);
        ReachesStep(p, n, p.destroy[n], true);
        ReachesThen(p, n, p.destroy[n], m, true);
      }
    }
  }

  lemma {:induction false} SeenFromBody(p: Program, s: State, n: Node, i: nat, m: Node)
    requires Closed(p) && n in p.mentions && i <= |p.mentions[n]| && m in Body(p, s, n, i).seen && m !in s.seen
    ensures Reaches(p, n, m, true)
    decreases Left(p, s), 1, i
  {
    hide Reaches;
    var s1, d := Body(p, s, n, i - 1), p.mentions[n][i - 1];
    LeftShrinks(p, s, s1);
    if m in s1.seen {
      SeenFromBody(p, s, n, i - 1, m);
    } else {
      SeenFrom(p, s1, d, m);
      ReachesStep(p, n, d, true);
      ReachesThen(p, n, d, m, true);
    }
  }

  // Emitted is exactly what the roots lead to.
  lemma {:induction false} EmittedIsReached(p: Program, roots: seq<Node>, n: Node)
    requires Roots(p, roots)
    ensures n in Emit(p, roots).seen <==> Reached(p, roots, n)
  {
    EmitSound(p, roots);
    var s := Emit(p, roots);
    if n in s.seen {
      SeenIsReached(p, roots, n);
    }
    if Reached(p, roots, n) {
      var i :| 0 <= i < |roots| && Reaches(p, roots[i], n, true);
      RootSeen(p, roots, i);
      var q :| Path(p, q, true) && q[0] == roots[i] && q[|q| - 1] == n;
      PathSeen(p, s, q, |q| - 1);
    }
  }

  lemma {:induction false} SeenIsReached(p: Program, roots: seq<Node>, n: Node)
    requires Roots(p, roots) && n in Emit(p, roots).seen
    ensures Reached(p, roots, n)
  {
    hide Reaches;
    var k := |roots| - 1;
    if n in Emit(p, roots[..k]).seen {
      SeenIsReached(p, roots[..k], n);
      var i :| 0 <= i < k && Reaches(p, roots[..k][i], n, true);
      assert Reaches(p, roots[i], n, true);
    } else {
      SeenFrom(p, Emit(p, roots[..k]), roots[k], n);
    }
  }

  lemma {:induction false} RootSeen(p: Program, roots: seq<Node>, i: nat)
    requires Roots(p, roots) && i < |roots|
    ensures roots[i] in Emit(p, roots).seen
  {
    if i < |roots| - 1 { RootSeen(p, roots[..|roots| - 1], i); }
  }

  lemma {:induction false} PathSeen(p: Program, s: State, q: seq<Node>, i: nat)
    requires Sound(p, s, {}, {}) && Path(p, q, true) && q[0] in s.seen && i < |q|
    ensures q[i] in s.seen
  {
    if i > 0 {
      PathSeen(p, s, q, i - 1);
      assert Edge(p, q[i - 1], q[i], true) && q[i - 1] in s.seen - {} - {};
      if Edge(p, q[i - 1], q[i], false) { assert q[i] in s.seen; }
    }
  }

  // ----- the theorems -------------------------------------------------------

  // Every global is stored before an initialiser uses it or calls a function
  // that leads to it, if no global that the roots lead to leads back to itself
  // from its initialiser, by mentions or destroy functions.
  lemma OrderedIfAcyclic(p: Program, roots: seq<Node>)
    requires Roots(p, roots) && forall x :: Reached(p, roots, x) ==> !Circular(p, x, false, true)
    ensures Ordered(p, Emit(p, roots).ctor)
  {
    hide Reaches, Circular;
    forall x | x in Emit(p, roots).seen ensures !Circular(p, x, false, true) { EmittedIsReached(p, roots, x); }
    EmitOrdered(p, roots);
  }

  // Where one leads back to itself by mentions alone, it is not.
  lemma CircularIsUsedEarly(p: Program, roots: seq<Node>, x: Node)
    requires Roots(p, roots) && Reached(p, roots, x) && Circular(p, x, false, false)
    ensures !Ordered(p, Emit(p, roots).ctor)
  {
    var s := Emit(p, roots);
    EmitSound(p, roots);
    EmittedIsReached(p, roots, x);
    var d :| Edge(p, x, d, false) && Reaches(p, d, x, false);
    assert Uses(x, d) in s.ctor;
    var i :| 0 <= i < |s.ctor| && s.ctor[i] == Uses(x, d);
    assert Stores(x) !in s.ctor[..i];
    assert !UseReady(p, s.ctor, i);
  }

  // Destroy functions that lead to no global.
  ghost predicate PlainDestructors(p: Program, roots: seq<Node>) {
    forall x: Node, z: Node :: x.Global? && z.Global? && x in p.destroy && Reached(p, roots, x) ==> !Reaches(p, p.destroy[x], z, true)
  }

  // With those the two conditions are one.
  lemma OrderedIffAcyclic(p: Program, roots: seq<Node>)
    requires Roots(p, roots) && PlainDestructors(p, roots)
    ensures Ordered(p, Emit(p, roots).ctor) <==> forall x :: Reached(p, roots, x) ==> !Circular(p, x, false, false)
  {
    hide Reaches;
    if forall x :: Reached(p, roots, x) ==> !Circular(p, x, false, false) {
      forall x | Reached(p, roots, x) ensures !Circular(p, x, false, true) {
        if Circular(p, x, false, true) { PlainCircle(p, roots, x); }
      }
      OrderedIfAcyclic(p, roots);
    } else {
      var x :| Reached(p, roots, x) && Circular(p, x, false, false);
      CircularIsUsedEarly(p, roots, x);
    }
  }

  lemma PlainCircle(p: Program, roots: seq<Node>, x: Node)
    requires PlainDestructors(p, roots) && Reached(p, roots, x) && Circular(p, x, false, true)
    ensures Circular(p, x, false, false)
  {
    hide Reaches;
    var d :| Edge(p, x, d, false) && Reaches(p, d, x, true);
    ReachedThen(p, roots, x, d);
    PlainPath(p, roots, d, x);
  }

  lemma ReachedThen(p: Program, roots: seq<Node>, x: Node, d: Node)
    requires Reached(p, roots, x) && Edge(p, x, d, true)
    ensures Reached(p, roots, d)
  {
    hide Reaches;
    var i :| 0 <= i < |roots| && Reaches(p, roots[i], x, true);
    ReachesStep(p, x, d, true);
    ReachesThen(p, roots[i], x, d, true);
  }

  // A way to a global goes through no destroy function.
  lemma PlainPath(p: Program, roots: seq<Node>, d: Node, x: Node)
    requires PlainDestructors(p, roots) && Reached(p, roots, d) && Reaches(p, d, x, true) && x.Global?
    ensures Reaches(p, d, x, false)
  {
    var q: seq<Node> :| Path(p, q, true) && q[0] == d && q[|q| - 1] == x;
    forall i | 0 <= i < |q| - 1 ensures Edge(p, q[i], q[i + 1], false) {
      assert Edge(p, q[i], q[i + 1], true);
      PathReached(p, roots, q, i);
      assert Path(p, q[i + 1..], true);
      assert Reaches(p, q[i + 1], x, true);
      var y: Node := q[i];
      assert y.Global? && y in p.destroy ==> !Reaches(p, p.destroy[y], x, true);
    }
    assert Path(p, q, false);
  }

  lemma {:induction false} PathReached(p: Program, roots: seq<Node>, q: seq<Node>, i: nat)
    requires Path(p, q, true) && Reached(p, roots, q[0]) && i < |q|
    ensures Reached(p, roots, q[i])
  {
    hide Reached;
    if i > 0 {
      PathReached(p, roots, q, i - 1);
      assert Edge(p, q[i - 1], q[i], true);
      ReachedThen(p, roots, q[i - 1], q[i]);
    }
  }

  // Each global that the roots lead to is stored once and registered once, and
  // the registered ones are destroyed in the reverse order.
  lemma InitialisedOnce(p: Program, roots: seq<Node>)
    requires Roots(p, roots)
    ensures var s := Emit(p, roots);
            && NoRepeats(StoresOf(s.ctor)) && NoRepeats(s.initialized)
            && (forall x: Node :: x.Global? && Reached(p, roots, x) <==> x in StoresOf(s.ctor))
            && (forall x: Node :: x.Global? && Reached(p, roots, x) <==> x in s.initialized)
            && (var gone := Reversed(s.initialized);
                |gone| == |s.initialized| && forall i :: 0 <= i < |gone| ==> gone[i] == s.initialized[|gone| - 1 - i])
  {
    hide Reached;
    var s := Emit(p, roots);
    EmitSound(p, roots);
    ReversedAt(s.initialized);
    forall x: Node
      ensures x.Global? && Reached(p, roots, x) <==> x in StoresOf(s.ctor)
      ensures x.Global? && Reached(p, roots, x) <==> x in s.initialized
    {
      EmittedIsReached(p, roots, x);
      StoresOfAll(s.ctor, x);
      StoredIsGlobal(p, roots, x);
    }
  }

  lemma {:induction false} StoredIsGlobal(p: Program, roots: seq<Node>, x: Node)
    requires Roots(p, roots)
    ensures Stores(x) in Emit(p, roots).ctor || x in Emit(p, roots).initialized ==> x.Global?
  {
    if roots != [] {
      StoredIsGlobal(p, roots[..|roots| - 1], x);
      GlobalsOnly(p, Emit(p, roots[..|roots| - 1]), roots[|roots| - 1], x);
    }
  }

  lemma {:induction false} GlobalsOnly(p: Program, s: State, n: Node, x: Node)
    requires Closed(p) && n in p.mentions && (Stores(x) in s.ctor || x in s.initialized ==> x.Global?)
    ensures Stores(x) in Mention(p, s, n).ctor || x in Mention(p, s, n).initialized ==> x.Global?
    decreases Left(p, s), 0
  {
    if n !in s.seen {
      FewerLeft(p, s, n);
      GlobalsOnlyBody(p, Opened(s, n), n, |p.mentions[n]|, x);
      var s1 := Body(p, Opened(s, n), n, |p.mentions[n]|);
      LeftShrinks(p, Opened(s, n), s1);
      if n.Global? {
        GlobalsOnly(p, Happens(s1, Stores(n)), p.destroy[n], x);
        assert Mention(p, s, n) == Register(p, Happens(s1, Stores(n)), n);
      }
    }
  }

  lemma {:induction false} GlobalsOnlyBody(p: Program, s: State, n: Node, i: nat, x: Node)
    requires Closed(p) && n in p.mentions && i <= |p.mentions[n]| && (Stores(x) in s.ctor || x in s.initialized ==> x.Global?)
    ensures Stores(x) in Body(p, s, n, i).ctor || x in Body(p, s, n, i).initialized ==> x.Global?
    decreases Left(p, s), 1, i
  {
    if i > 0 {
      GlobalsOnlyBody(p, s, n, i - 1, x);
      LeftShrinks(p, s, Body(p, s, n, i - 1));
      GlobalsOnly(p, Body(p, s, n, i - 1), p.mentions[n][i - 1], x);
    }
  }

  lemma {:induction false} ReversedAt(s: seq<Node>)
    ensures |Reversed(s)| == |s| && forall i :: 0 <= i < |s| ==> Reversed(s)[i] == s[|s| - 1 - i]
  {
    if s != [] { ReversedAt(s[..|s| - 1]); }
  }

  // Globals are destroyed in the exact reverse order of their initialisation if
  // and only if no destroy function is the first to lead to a global.
  lemma {:induction false} ReverseIffNotLate(p: Program, roots: seq<Node>)
    requires Roots(p, roots)
    ensures InStep(Emit(p, roots)) <==> !LateInRoots(p, roots)
  {
    if LateInRoots(p, roots) {
      LateRootsCross(p, roots);
      CrossedOutOfStep(Emit(p, roots));
    } else if roots != [] {
      ReverseIffNotLate(p, roots[..|roots| - 1]);
      NotLateInStep(p, Emit(p, roots[..|roots| - 1]), roots[|roots| - 1]);
    }
  }

  lemma {:induction false} LateRootsCross(p: Program, roots: seq<Node>)
    requires Roots(p, roots) && LateInRoots(p, roots)
    ensures Crossed(Emit(p, roots))
  {
    hide Crossed;
    var before, n := roots[..|roots| - 1], roots[|roots| - 1];
    if LateInRoots(p, before) {
      LateRootsCross(p, before);
      MentionGrows(p, Emit(p, before), n);
      CrossedStays(Emit(p, before), Emit(p, roots));
    } else {
      EmitSound(p, before);
      LateCrosses(p, Emit(p, before), {}, {}, n);
    }
  }

  // So with destroy functions that lead to no global the order is exact.
  lemma PlainInStep(p: Program, roots: seq<Node>)
    requires Roots(p, roots) && PlainDestructors(p, roots)
    ensures InStep(Emit(p, roots))
  {
    hide Reaches, PlainDestructors;
    ReverseIffNotLate(p, roots);
    if LateInRoots(p, roots) { LateRootsNotPlain(p, roots, roots); }
  }

  // x's destroy function leads to a global.
  ghost predicate Needs(p: Program, x: Node) {
    x.Global? && x in p.destroy && exists z: Node :: z.Global? && Reaches(p, p.destroy[x], z, true)
  }

  lemma {:induction false} LateRootsNotPlain(p: Program, roots: seq<Node>, some: seq<Node>)
    requires Roots(p, roots) && some <= roots && Roots(p, some) && LateInRoots(p, some)
    ensures !PlainDestructors(p, roots)
  {
    hide Reaches;
    var before := some[..|some| - 1];
    if LateInRoots(p, before) {
      LateRootsNotPlain(p, roots, before);
    } else {
      var x := LateNeeds(p, Emit(p, before), some[|some| - 1]);
      assert roots[|some| - 1] == some[|some| - 1];
    }
  }

  lemma {:induction false} LateNeeds(p: Program, s: State, n: Node) returns (x: Node)
    requires Closed(p) && n in p.mentions && LateIn(p, s, n)
    ensures Needs(p, x) && Reaches(p, n, x, true)
    decreases Left(p, s), 0
  {
    hide Reaches;
    FewerLeft(p, s, n);
    var s0, k := Opened(s, n), |p.mentions[n]|;
    if LateInBody(p, s0, n, k) {
      x := LateBodyNeeds(p, s0, n, k);
    } else {
      x := n;
      var s1 := Happens(Body(p, s0, n, k), Stores(n));
      var g: Node :| g.Global? && g !in s1.seen && g in Mention(p, s1, p.destroy[n]).seen;
      SeenFrom(p, s1, p.destroy[n], g);
      ReachesSelf(p, n, true);
    }
  }

  lemma {:induction false} LateBodyNeeds(p: Program, s: State, n: Node, i: nat) returns (x: Node)
    requires Closed(p) && n in p.mentions && i <= |p.mentions[n]| && LateInBody(p, s, n, i)
    ensures Needs(p, x) && Reaches(p, n, x, true)
    decreases Left(p, s), 1, i
  {
    hide Reaches;
    if LateInBody(p, s, n, i - 1) {
      x := LateBodyNeeds(p, s, n, i - 1);
    } else {
      var d := p.mentions[n][i - 1];
      LeftShrinks(p, s, Body(p, s, n, i - 1));
      x := LateNeeds(p, Body(p, s, n, i - 1), d);
      ReachesStep(p, n, d, true);
      ReachesThen(p, n, d, x, true);
    }
  }

  // What the order is for: where no global that the roots lead to leads back to
  // itself, each is destroyed before the globals its destroy function leads to.
  lemma DestroyedBeforeItsNeeds(p: Program, roots: seq<Node>)
    requires Roots(p, roots) && forall x :: Reached(p, roots, x) ==> !Circular(p, x, true, true)
    ensures Outlived(p, Emit(p, roots).initialized)
  {
    hide Reaches, Circular;
    forall x | x in Emit(p, roots).seen ensures !Circular(p, x, true, true) { EmittedIsReached(p, roots, x); }
    EmitOutlived(p, roots);
  }

  // ----- where the orders fail ----------------------------------------------

  const A := Global(0)
  const B := Global(1)
  const C := Global(2)
  const NoOp := Function(0)      // a destroy function that mentions nothing

  // Two globals that use each other: one of them is used before it is stored.
  lemma MutualUse()
    ensures var p := Program(map[A := [B], B := [A], NoOp := []], map[A := NoOp, B := NoOp]);
            Roots(p, [A]) && Emit(p, [A]).ctor == [Uses(B, A), Stores(B), Uses(A, B), Stores(A)]
  {
    var p := Program(map[A := [B], B := [A], NoOp := []], map[A := NoOp, B := NoOp]);
    assert [A][..0] == [];
    var sb := State({A, B}, [], []);
    assert {} + {A} == {A} && {A} + {B} == {A, B} && {A, B} + {NoOp} == {A, B, NoOp};
    assert Body(p, sb, B, 0) == sb && Body(p, sb, B, 1) == Happens(sb, Uses(B, A));
    var sa := State({A}, [], []);
    var s2 := State({A, B}, [Uses(B, A), Stores(B)], []);
    assert Mention(p, s2, NoOp) == Opened(s2, NoOp) by { assert Body(p, Opened(s2, NoOp), NoOp, 0) == Opened(s2, NoOp); }
    var s3 := State({A, B, NoOp}, [Uses(B, A), Stores(B)], [B]);
    assert Register(p, s2, B) == s3;
    MentionIs(p, sa, B, sb);
    assert Happens(Body(p, sb, B, 1), Stores(B)) == s2;
    assert Mention(p, sa, B) == s3;
    assert Body(p, sa, A, 0) == sa && Body(p, sa, A, 1) == Happens(s3, Uses(A, B));
    var s4 := State({A, B, NoOp}, [Uses(B, A), Stores(B), Uses(A, B), Stores(A)], [B]);
    assert Register(p, s4, A) == s4.(initialized := [B, A]);
    MentionIs(p, Empty(), A, sa);
    assert Happens(Body(p, sa, A, 1), Stores(A)) == s4;
    assert Emit(p, []) == Empty() && Mention(p, Empty(), A) == s4.(initialized := [B, A]);
  }

  // A global whose destroy function is the first to mention another: they are
  // destroyed in the order of their initialisation.
  lemma LateDestructor()
    ensures var p := LateProgram();
            && Roots(p, [A]) && Emit(p, [A]).ctor == [Stores(A), Stores(B)]
            && Reversed(Emit(p, [A]).initialized) == [A, B] && LateInRoots(p, [A])
  {
    LateRun(LateProgram());
    hide *;
    LateReversed(Emit(LateProgram(), [A]));
    ReverseIffNotLate(LateProgram(), [A]);
  }

  function LateProgram(): Program {
    Program(map[A := [], Function(1) := [B], B := [], NoOp := []], map[A := Function(1), B := NoOp])
  }

  lemma LateReversed(s: State)
    requires s.ctor == [Stores(A), Stores(B)] && s.initialized == [B, A]
    ensures Reversed(s.initialized) == [A, B] && !InStep(s)
  {
    assert [B, A][..1] == [B] && [B][..0] == [];
    assert Reversed([B]) == [B] + Reversed([]);
    assert Reversed([B, A]) == [A] + Reversed([B]);
    StoresOfMore([Stores(A)], Stores(B));
    StoresOfMore([], Stores(A));
    assert [] + [Stores(A)] == [Stores(A)] && [Stores(A)] + [Stores(B)] == [Stores(A), Stores(B)];
    assert [B, A][0] != [A, B][0];
  }

  lemma LateRun(p: Program)
    requires p == LateProgram()
    ensures Roots(p, [A]) && Emit(p, [A]).ctor == [Stores(A), Stores(B)] && Emit(p, [A]).initialized == [B, A]
  {
    var s1 := State({A}, [Stores(A)], []);
    var last := LateStep(p, s1);
    assert [A][..0] == [] && {} + {A} == {A};
    assert Body(p, State({A}, [], []), A, 0) == State({A}, [], []);
    MentionIs(p, Empty(), A, State({A}, [], []));
    assert Happens(State({A}, [], []), Stores(A)) == s1;
    assert Register(p, s1, A) == last.(initialized := [B, A]);
    assert Emit(p, []) == Empty();
  }

  // The compilation of A's destroy function.
  lemma LateStep(p: Program, s1: State) returns (last: State)
    requires p == LateProgram()
    requires s1 == State({A}, [Stores(A)], [])
    ensures Closed(p) && last == Mention(p, s1, Function(1)) && last.ctor == [Stores(A), Stores(B)] && last.initialized == [B]
  {
    var f := Function(1);
    var s2 := State({A, f}, [Stores(A)], []);
    var s3 := State({A, f, B}, [Stores(A)], []);
    var s4 := State({A, f, B}, [Stores(A), Stores(B)], []);
    var s5 := State({A, f, B, NoOp}, [Stores(A), Stores(B)], []);
    assert s1.seen + {f} == s2.seen && s2.seen + {B} == s3.seen && s4.seen + {NoOp} == s5.seen;
    assert Body(p, s3, B, 0) == s3 && Body(p, s5, NoOp, 0) == s5;
    MentionIs(p, s4, NoOp, s5);
    assert Register(p, s4, B) == s5.(initialized := [B]);
    MentionIs(p, s2, B, s3);
    assert Happens(Body(p, s3, B, 0), Stores(B)) == s4;
    last := s5.(initialized := [B]);
    assert Body(p, s2, f, 0) == s2 && Body(p, s2, f, 1) == last;
    MentionIs(p, s1, f, s2);
  }

  // B's destructor leads back to A, whose initialiser uses B, through C, whose
  // initialiser uses A. Which of A and C is compiled first decides whether
  // every global is stored before it is used.
  function Detour(): Program {
    Program(map[A := [B], B := [], C := [A], Function(1) := [C], NoOp := []], map[A := NoOp, B := Function(1), C := NoOp])
  }

  lemma FirstA()
    ensures Roots(Detour(), [A]) && !Ordered(Detour(), Emit(Detour(), [A]).ctor)
  {
    var p := Detour();
    assert [A][..0] == [];
    var s0 := State({A}, [], []);
    var s1 := State({A, B}, [], []);
    var s2 := State({A, B}, [Stores(B)], []);
    assert {} + {A} == {A} && s0.seen + {B} == s1.seen;
    assert Body(p, s1, B, 0) == s1;
    var s6 := ThroughC(p, s2);
    MentionIs(p, s0, B, s1);
    assert Happens(Body(p, s1, B, 0), Stores(B)) == s2;
    assert Body(p, s0, A, 0) == s0;
    var s7 := Body(p, s0, A, 1);
    assert s6.ctor <= s7.ctor;
    assert Emit(p, []) == Empty();
    MentionGrows(p, Happens(s7, Stores(A)), NoOp);
    var ctor := Emit(p, [A]).ctor;
    assert s7.ctor <= ctor;
    assert ctor[1] == Uses(C, A) && ctor[..1] == [Stores(B)];
    ReachesSelf(p, A, false);
    assert !UseReady(p, ctor, 1);
  }

  // B's destroy function is compiled while A's initialiser is.
  lemma ThroughC(p: Program, s2: State) returns (s6: State)
    requires p == Detour() && s2 == State({A, B}, [Stores(B)], [])
    ensures Closed(p) && s6 == Mention(p, s2, Function(1)) && [Stores(B), Uses(C, A), Stores(C)] <= s6.ctor
  {
    var f := Function(1);
    var s3 := State({A, B, f}, [Stores(B)], []);
    var s4 := State({A, B, f, C}, [Stores(B)], []);
    assert s2.seen + {f} == s3.seen && s3.seen + {C} == s4.seen;
    assert Body(p, s4, C, 0) == s4 && Body(p, s4, C, 1) == Happens(s4, Uses(C, A));
    var s5 := State(s4.seen, [Stores(B), Uses(C, A), Stores(C)], []);
    s6 := Mention(p, s3, C);
    MentionIs(p, s3, C, s4);
    assert Happens(Body(p, s4, C, 1), Stores(C)) == s5;
    MentionGrows(p, s5, NoOp);
    assert Body(p, s3, f, 0) == s3 && Body(p, s3, f, 1) == s6;
    MentionIs(p, s2, f, s3);
  }

  lemma FirstC()
    ensures Roots(Detour(), [C]) && Ordered(Detour(), Emit(Detour(), [C]).ctor)
  {
    var p := Detour();
    var s0 := State({C}, [], []);
    assert [C][..0] == [] && {} + {C} == {C};
    var s6 := ThenA(p, s0);
    assert Body(p, s0, C, 0) == s0;
    var s7 := Body(p, s0, C, 1);
    assert s7 == Happens(s6, Uses(C, A));
    assert Mention(p, Happens(s7, Stores(C)), NoOp) == Happens(s7, Stores(C));
    MentionIs(p, Empty(), C, s0);
    assert Emit(p, []) == Empty();
    var ctor := Emit(p, [C]).ctor;
    assert ctor == [Stores(B), Uses(A, B), Stores(A), Uses(C, A), Stores(C)];
    InOrder(ctor);
  }

  // C's initialiser has been opened and mentions A.
  lemma ThenA(p: Program, s0: State) returns (s6: State)
    requires p == Detour() && s0 == State({C}, [], [])
    ensures Closed(p) && s6 == Mention(p, s0, A) && NoOp in s6.seen && s6.ctor == [Stores(B), Uses(A, B), Stores(A)]
  {
    var s1 := State({C, A}, [], []);
    var s4 := ThenB(p, s1);
    var s5 := State(s4.seen, [Stores(B), Uses(A, B), Stores(A)], [B]);
    assert s0.seen + {A} == s1.seen;
    assert Body(p, s1, A, 0) == s1 && Body(p, s1, A, 1) == State(s4.seen, [Stores(B), Uses(A, B)], [B]);
    s6 := State(s4.seen + {NoOp}, s5.ctor, [B]);
    assert Body(p, s6, NoOp, 0) == s6;
    MentionIs(p, s5, NoOp, s6);
    MentionIs(p, s0, A, s1);
    assert Happens(Body(p, s1, A, 1), Stores(A)) == s5;
    s6 := s6.(initialized := [B, A]);
  }

  lemma ThenB(p: Program, s1: State) returns (s4: State)
    requires p == Detour() && s1 == State({C, A}, [], [])
    ensures Closed(p) && s4 == Mention(p, s1, B) && s4.ctor == [Stores(B)] && s4.initialized == [B] && NoOp !in s4.seen && C in s4.seen
  {
    var f := Function(1);
    var s2 := State({C, A, B}, [], []);
    var s3 := State({C, A, B}, [Stores(B)], []);
    s4 := State({C, A, B, f}, [Stores(B)], []);
    assert s1.seen + {B} == s2.seen && s3.seen + {f} == s4.seen;
    assert Body(p, s2, B, 0) == s2 && Body(p, s4, f, 0) == s4 && Body(p, s4, f, 1) == s4;
    MentionIs(p, s3, f, s4);
    MentionIs(p, s1, B, s2);
    assert Happens(Body(p, s2, B, 0), Stores(B)) == s3;
    s4 := s4.(initialized := [B]);
  }

  lemma InOrder(ctor: seq<Event>)
    requires ctor == [Stores(B), Uses(A, B), Stores(A), Uses(C, A), Stores(C)]
    ensures Ordered(Detour(), ctor)
  {
    var p := Detour();
    forall z: Node | z.Global? && Reaches(p, B, z, false) ensures z == B { Within(p, {B}, B, z); }
    forall z: Node | z.Global? && Reaches(p, A, z, false) ensures z == A || z == B { Within(p, {A, B}, A, z); }
    hide Reaches;
    forall i | 0 <= i < |ctor| ensures UseReady(p, ctor, i) {
      assert ctor[..1] == [Stores(B)] && ctor[..3] == [Stores(B), Uses(A, B), Stores(A)];
    }
  }

  // A set without ways out.
  lemma Within(p: Program, ns: set<Node>, a: Node, b: Node)
    requires a in ns && Reaches(p, a, b, false) && forall m, d :: m in ns && Edge(p, m, d, false) ==> d in ns
    ensures b in ns
  {
    var q :| Path(p, q, false) && q[0] == a && q[|q| - 1] == b;
    StaysWithin(p, ns, q, |q| - 1);
  }

  lemma {:induction false} StaysWithin(p: Program, ns: set<Node>, q: seq<Node>, i: nat)
    requires Path(p, q, false) && q[0] in ns && i < |q| && forall m, d :: m in ns && Edge(p, m, d, false) ==> d in ns
    ensures q[i] in ns
  {
    if i > 0 {
      StaysWithin(p, ns, q, i - 1);
      assert Edge(p, q[i - 1], q[i], false);
    }
  }

  // ----- emission, in place -------------------------------------------------

  class GlobalEmitter {
    const program: Program
    var seen: set<Node>                   // llGlobal of globals, llvmFunc of functions
    var constructors: seq<Event>          // constructorsCtx
    var initializedGlobals: seq<Node>

    function Now(): State
      reads this
    {
      State(seen, constructors, initializedGlobals)
    }

    constructor (p: Program)
      ensures program == p && Now() == Empty()
    {
      program := p;
      seen, constructors, initializedGlobals := {}, [], [];
    }

    // What compiling a reference to a global or a call of a function does first.
    method NeedNode(n: Node)
      requires Closed(program) && n in program.mentions
      modifies this
      ensures Now() == Mention(program, old(Now()), n)
      decreases Left(program, Now()), 0
    {
      if n in seen { return; }
      FewerLeft(program, Now(), n);
      seen := seen + {n};
      match n
      case Global(_) => GVarInstance(n);
      case Function(_) => Statements(n);
    }

    // codegenGVarInstance: the initialiser, the store, the destroy function of
    // the type, the registration.
    method GVarInstance(n: Node)
      requires Closed(program) && n in program.mentions && n.Global? && n in seen
      modifies this
      ensures var s := Body(program, old(Now()), n, |program.mentions[n]|);
              Now() == Register(program, Happens(s, Stores(n)), n)
      decreases Left(program, Now()), 2
    {
      Statements(n);
      LeftShrinks(program, old(Now()), Now());
      constructors := constructors + [Stores(n)];
      NeedNode(program.destroy[n]);
      initializedGlobals := initializedGlobals + [n];
    }

    method Statements(n: Node)
      requires Closed(program) && n in program.mentions
      modifies this
      ensures Now() == Body(program, old(Now()), n, |program.mentions[n]|)
      decreases Left(program, Now()), 1
    {
      var mentions := program.mentions[n];
      for i := 0 to |mentions|
        invariant old(seen) <= seen && Now() == Body(program, old(Now()), n, i)
      {
        LeftShrinks(program, old(Now()), Now());
        NeedNode(mentions[i]);
        if n.Global? { constructors := constructors + [Uses(n, mentions[i])]; }
      }
    }

    // finalizeCtorsDtors: the globals in the order they are destroyed.
    method Destructors() returns (gone: seq<Node>)
      ensures gone == Reversed(initializedGlobals)
    {
      gone := [];
      var i := |initializedGlobals|;
      assert initializedGlobals[..i] == initializedGlobals;
      while i > 0
        invariant 0 <= i <= |initializedGlobals|
        invariant gone + Reversed(initializedGlobals[..i]) == Reversed(initializedGlobals)
      {
        assert initializedGlobals[..i][..i - 1] == initializedGlobals[..i - 1];
        i := i - 1;
        gone := gone + [initializedGlobals[i]];
      }
    }
  }
}
