// The edit distance behind "did you mean": two rows of the table, against the
// cheapest edit script.
module EditDistance {

  function Min(x: int, y: int): int { if x < y then x else y }

  function Init(s: string): string
    requires s != []
  {
    s[..|s| - 1]
  }

  function Last(s: string): char
    requires s != []
  {
    s[|s| - 1]
  }

  function Distance(a: string, b: string): nat
    decreases |a| + |b|
  {
    if a == [] then |b|
    else if b == [] then |a|
    else
      Min(Min(Distance(Init(a), b) + 1, Distance(a, Init(b)) + 1),
          Distance(Init(a), Init(b)) + if Last(a) == Last(b) then 0 else 1)
  }

  // ----- edit scripts -------------------------------------------------------

  datatype Edit = Keep | Replace | Insert | Delete

  // The edits, in order, turn a into b.
  predicate Turns(es: seq<Edit>, a: string, b: string) {
    if es == [] then a == [] && b == []
    else
      var rest := es[..|es| - 1];
      match es[|es| - 1]
      case Keep => a != [] && b != [] && Last(a) == Last(b) && Turns(rest, Init(a), Init(b))
      case Replace => a != [] && b != [] && Turns(rest, Init(a), Init(b))
      case Insert => b != [] && Turns(rest, a, Init(b))
      case Delete => a != [] && Turns(rest, Init(a), b)
  }

  function Cost(es: seq<Edit>): nat {
    if es == [] then 0 else Cost(es[..|es| - 1]) + if es[|es| - 1].Keep? then 0 else 1
  }

  lemma Bounds(a: string, b: string)
    ensures Distance(a, b) <= |a| + |b|
    ensures a != [] ==> Distance(a, b) <= Distance(Init(a), b) + 1
    ensures b != [] ==> Distance(a, b) <= Distance(a, Init(b)) + 1
    ensures a != [] && b != [] ==> Distance(a, b) <= Distance(Init(a), Init(b)) + if Last(a) == Last(b) then 0 else 1
    decreases |a| + |b|
  {
    if a != [] { Bounds(Init(a), b); }
    if b != [] { Bounds(a, Init(b)); }
  }

  // No script is cheaper.
  lemma {:induction false} NoneCheaper(es: seq<Edit>, a: string, b: string)
    requires Turns(es, a, b)
    ensures Distance(a, b) <= Cost(es)
  {
    if es != [] {
      var rest := es[..|es| - 1];
      Bounds(a, b);
      match es[|es| - 1]
      case Keep => NoneCheaper(rest, Init(a), Init(b));
      case Replace => NoneCheaper(rest, Init(a), Init(b));
      case Insert => NoneCheaper(rest, a, Init(b));
      case Delete => NoneCheaper(rest, Init(a), b);
    }
  }

  // Some script is as cheap.
  lemma {:induction false} Cheapest(a: string, b: string) returns (es: seq<Edit>)
    ensures Turns(es, a, b) && Cost(es) == Distance(a, b)
    decreases |a| + |b|
  {
    if a == [] && b == [] { return []; }
    var rest, e;
    if b != [] && (a == [] || Distance(a, b) == Distance(a, Init(b)) + 1) {
      rest := Cheapest(a, Init(b));
      e := Insert;
    } else if b == [] || Distance(a, b) == Distance(Init(a), b) + 1 {
      rest := Cheapest(Init(a), b);
      e := Delete;
    } else {
      rest := Cheapest(Init(a), Init(b));
      e := if Last(a) == Last(b) then Keep else Replace;
    }
    es := rest + [e];
    assert es[..|es| - 1] == rest;
  }

  // ----- a metric -----------------------------------------------------------

  lemma {:induction false} Symmetric(a: string, b: string)
    ensures Distance(a, b) == Distance(b, a)
    decreases |a| + |b|
  {
    if a != [] && b != [] {
      Symmetric(Init(a), b);
      Symmetric(a, Init(b));
      Symmetric(Init(a), Init(b));
    }
  }

  lemma {:induction false} ZeroOnlyEqual(a: string, b: string)
    ensures Distance(a, b) == 0 <==> a == b
    decreases |a| + |b|
  {
    if a != [] && b != [] {
      ZeroOnlyEqual(Init(a), Init(b));
      assert a == Init(a) + [Last(a)] && b == Init(b) + [Last(b)];
    }
  }

  lemma {:induction false} Triangle(a: string, b: string, c: string)
    ensures Distance(a, c) <= Distance(a, b) + Distance(b, c)
    decreases |a| + |b| + |c|
  {
    Bounds(a, c);
    if b == [] {
      LongestWay(a, c);
    } else if a != [] && Distance(a, b) == Distance(Init(a), b) + 1 {
      Triangle(Init(a), b, c);
    } else if c != [] && Distance(b, c) == Distance(b, Init(c)) + 1 {
      Triangle(a, b, Init(c));
    } else if a == [] || Distance(a, b) == Distance(a, Init(b)) + 1 {
      if c == [] || Distance(b, c) == Distance(Init(b), c) + 1 {
        Triangle(a, Init(b), c);
      } else {
        Triangle(a, Init(b), Init(c));
      }
    } else if c == [] || Distance(b, c) == Distance(Init(b), c) + 1 {
      Triangle(Init(a), Init(b), c);
    } else {
      Triangle(Init(a), Init(b), Init(c));
    }
  }

  lemma LongestWay(a: string, c: string)
    ensures Distance(a, c) <= |a| + |c|
    ensures Distance(a, []) == |a| && Distance([], c) == |c|
  {
    Bounds(a, c);
  }

  lemma {:induction false} AtMostLonger(a: string, b: string)
    ensures Distance(a, b) <= if |a| < |b| then |b| else |a|
    decreases |a| + |b|
  {
    if a != [] && b != [] { AtMostLonger(Init(a), Init(b)); }
  }

  // ----- two rows -----------------------------------------------------------

  const WORD := 0x1_0000_0000   // unsigned is 32 bits wide

  // The entry of the table for the first i characters of a and j of b.
  function Entry(a: string, b: string, i: nat, j: nat): nat
    requires i <= |a| && j <= |b|
  {
    Distance(a[..i], b[..j])
  }

  lemma EntryStep(a: string, b: string, i: nat, j: nat)
    requires 0 < i <= |a| && 0 < j <= |b|
    ensures Entry(a, b, i, j) == Min(Min(Entry(a, b, i - 1, j) + 1, Entry(a, b, i, j - 1) + 1),
                                     Entry(a, b, i - 1, j - 1) + if a[i - 1] == b[j - 1] then 0 else 1)
  {
    var x, y := a[..i], b[..j];
    assert Init(x) == a[..i - 1] && Init(y) == b[..j - 1];
    assert Last(x) == a[i - 1] && Last(y) == b[j - 1];
  }

  lemma EntrySmall(a: string, b: string, i: nat, j: nat)
    requires i <= |a| && j <= |b| && |a| + 1 < WORD && |b| + 1 < WORD
    ensures Entry(a, b, i, j) + 1 < WORD
  {
    AtMostLonger(a[..i], b[..j]);
  }

  predicate Fits(a: string, b: string) {
    |a| + 1 < WORD && |b| + 1 < WORD
  }

  // The first n entries of row i.
  predicate IsRow(a: string, b: string, i: nat, row: seq<nat>, n: nat)
    requires i <= |a| && n <= |row| && |row| == |b| + 1
  {
    forall k :: 0 <= k < n ==> row[k] == Entry(a, b, i, k)
  }

  predicate Words(row: seq<nat>) {
    forall k :: 0 <= k < |row| ==> row[k] < WORD
  }

  // One entry, in 32-bit arithmetic.
  function Best(a: string, b: string, i: nat, j: nat, up: nat, left: nat, diagonal: nat): (best: nat)
    requires 0 < i <= |a| && 0 < j <= |b|
    ensures best < WORD
  {
    var del := (up + 1) % WORD;
    var ins := (left + 1) % WORD;
    var sub := (diagonal + if a[i - 1] == b[j - 1] then 0 else 1) % WORD;
    var best := if del < ins then del else ins;
    if best < sub then best else sub
  }

  lemma BestIsEntry(a: string, b: string, i: nat, j: nat)
    requires 0 < i <= |a| && 0 < j <= |b| && Fits(a, b)
    ensures Best(a, b, i, j, Entry(a, b, i - 1, j), Entry(a, b, i, j - 1), Entry(a, b, i - 1, j - 1)) == Entry(a, b, i, j)
  {
    hide Entry;
    EntryStep(a, b, i, j);
    EntrySmall(a, b, i - 1, j);
    EntrySmall(a, b, i, j - 1);
    EntrySmall(a, b, i - 1, j - 1);
  }

  lemma FirstEntries(a: string, b: string)
    ensures forall i :: 0 <= i <= |a| ==> Entry(a, b, i, 0) == i
    ensures forall j :: 0 <= j <= |b| ==> Entry(a, b, 0, j) == j
  {
    assert a[..0] == [] && b[..0] == [];
  }

  // editDistance. Lengths from 2^32 - 1 on do not fit the arithmetic.
  method Measure(a: string, b: string) returns (d: nat)
    ensures d < WORD
    ensures Fits(a, b) ==> d == Distance(a, b)
  {
    hide Entry;
    var n, m := |a|, |b|;
    var prev, cur := new nat[m + 1](_ => 0), new nat[m + 1](_ => 0);
    FirstEntries(a, b);
    for j := 0 to m + 1
      invariant Words(prev[..]) && Words(cur[..])
      invariant Fits(a, b) ==> IsRow(a, b, 0, prev[..], j)
    {
      prev[j] := j % WORD;
    }
    for i := 1 to n + 1
      invariant prev.Length == m + 1 && cur.Length == m + 1 && prev != cur && fresh(prev) && fresh(cur)
      invariant Words(prev[..]) && Words(cur[..])
      invariant Fits(a, b) ==> IsRow(a, b, i - 1, prev[..], m + 1)
    {
      cur[0] := i % WORD;
      for j := 1 to m + 1
        invariant Words(prev[..]) && Words(cur[..])
        invariant Fits(a, b) ==> IsRow(a, b, i - 1, prev[..], m + 1) && IsRow(a, b, i, cur[..], j)
      {
        if Fits(a, b) { BestIsEntry(a, b, i, j); }
        cur[j] := Best(a, b, i, j, prev[j], cur[j - 1], prev[j - 1]);
      }
      prev, cur := cur, prev;
    }
    LastEntry(a, b);
    d := prev[m];
  }

  lemma LastEntry(a: string, b: string)
    ensures Entry(a, b, |a|, |b|) == Distance(a, b)
  {
    assert a[..|a|] == a && b[..|b|] == b;
  }
}
