// One pass of addImportedSymbols over an import list, with the tables of the
// imported modules fixed: which of the imports of a name count.
module ImportLists {
  import opened Wrappers

  type Name = string
  type Value = nat
  type Symbols = map<Name, set<Value>>

  // An import, with what the imported module's tables hold. The members of a
  // member import are listed one by one, under the name they are given here.
  datatype Import =
    | Alias(name: Name)                          // import a module under a name
    | Star(symbols: Symbols)
    | Member(name: Name, values: set<Value>)

  datatype Error = AlreadyImported(name: Name) | NotFound(name: Name)

  datatype Pass = Pass(result: Symbols, specific: set<Name>) | Failed(error: Error)

  function Syms(t: Symbols, n: Name): set<Value> {
    if n in t then t[n] else {}
  }

  // ----- one import after another -------------------------------------------

  function Step(globals: set<Name>, x: Import, p: Pass): Pass {
    match p
    case Failed(_) => p
    case Pass(result, specific) =>
      match x
      case Alias(n) =>
        if n in specific then Failed(AlreadyImported(n)) else Pass(result, specific + {n})
      case Star(symbols) =>
        Pass(map n | n in result.Keys + (symbols.Keys - globals - specific) ::
               Syms(result, n) + (if n in globals || n in specific then {} else Syms(symbols, n)),
             specific)
      case Member(n, values) =>
        if values == {} then Failed(NotFound(n))
        else if n in specific then Failed(AlreadyImported(n))
        else if n in globals then p
        else if |values| > 1 then Failed(AlreadyImported(n))   // the second value finds the name taken
        else Pass(result[n := values], specific + {n})
  }

  function Run(globals: set<Name>, xs: seq<Import>, i: nat, before: Symbols): Pass
    requires i <= |xs|
  {
    if i == 0 then Pass(before, {}) else Step(globals, xs[i - 1], Run(globals, xs, i - 1, before))
  }

  // ----- what the list as a whole means -------------------------------------

  predicate Aliased(xs: seq<Import>, i: nat, n: Name)
    requires i <= |xs|
  {
    exists j :: 0 <= j < i && xs[j] == Alias(n)
  }

  // The member imported under name n, if there is one.
  predicate Specific(xs: seq<Import>, i: nat, n: Name)
    requires i <= |xs|
  {
    exists j :: 0 <= j < i && xs[j].Member? && xs[j].name == n
  }

  // What the star imports in front of any module import of the name offer.
  function FromStars(xs: seq<Import>, i: nat, n: Name): set<Value>
    requires i <= |xs|
  {
    if i == 0 then {}
    else FromStars(xs, i - 1, n) + if xs[i - 1].Star? && !Aliased(xs, i - 1, n) then Syms(xs[i - 1].symbols, n) else {}
  }

  // The module's own globals hide every import; an imported member hides every
  // star import, wherever it stands; a module import hides the star imports
  // behind it only.
  ghost predicate Resolves(globals: set<Name>, xs: seq<Import>, i: nat, before: Symbols, after: Symbols)
    requires i <= |xs|
  {
    forall n ::
      if n in globals then Syms(after, n) == Syms(before, n)
      else if Specific(xs, i, n) then forall j :: 0 <= j < i && xs[j].Member? && xs[j].name == n ==> Syms(after, n) == xs[j].values
      else Syms(after, n) == Syms(before, n) + FromStars(xs, i, n)
  }

  ghost predicate Counted(globals: set<Name>, xs: seq<Import>, i: nat, specific: set<Name>)
    requires i <= |xs|
  {
    forall n :: n in specific <==> Aliased(xs, i, n) || (n !in globals && Specific(xs, i, n))
  }

  lemma {:induction false} RunResolves(globals: set<Name>, xs: seq<Import>, i: nat, before: Symbols)
    requires i <= |xs| && Run(globals, xs, i, before).Pass?
    ensures Resolves(globals, xs, i, before, Run(globals, xs, i, before).result)
    ensures Counted(globals, xs, i, Run(globals, xs, i, before).specific)
    ensures forall j, k :: 0 <= j < k < i && xs[j].Member? && xs[k].Member? && xs[j].name == xs[k].name ==> xs[j].name in globals
  {
    if i > 0 {
      RunResolves(globals, xs, i - 1, before);
      var p, p' := Run(globals, xs, i - 1, before), Run(globals, xs, i, before);
      var x := xs[i - 1];
      forall n
        ensures Aliased(xs, i, n) <==> Aliased(xs, i - 1, n) || x == Alias(n)
        ensures Specific(xs, i, n) <==> Specific(xs, i - 1, n) || (x.Member? && x.name == n)
      {
        if Aliased(xs, i - 1, n) { var j :| 0 <= j < i - 1 && xs[j] == Alias(n); assert xs[j] == Alias(n) && j < i; }
        if Specific(xs, i - 1, n) { var j :| 0 <= j < i - 1 && xs[j].Member? && xs[j].name == n; assert j < i; }
      }
      StepResolves(globals, xs, i, before, p, p');
    }
  }

  lemma StepResolves(globals: set<Name>, xs: seq<Import>, i: nat, before: Symbols, p: Pass, p': Pass)
    requires 0 < i <= |xs| && p.Pass? && p'.Pass? && p' == Step(globals, xs[i - 1], p)
    requires Resolves(globals, xs, i - 1, before, p.result) && Counted(globals, xs, i - 1, p.specific)
    requires forall n :: Specific(xs, i, n) <==> Specific(xs, i - 1, n) || (xs[i - 1].Member? && xs[i - 1].name == n)
    ensures Resolves(globals, xs, i, before, p'.result)
  {
    hide Aliased;
    var x := xs[i - 1];
    forall n
      ensures if n in globals then Syms(p'.result, n) == Syms(before, n)
              else if Specific(xs, i, n) then forall j :: 0 <= j < i && xs[j].Member? && xs[j].name == n ==> Syms(p'.result, n) == xs[j].values
              else Syms(p'.result, n) == Syms(before, n) + FromStars(xs, i, n)
    {
      if n !in globals && x.Member? && x.name == n {
        assert !Specific(xs, i - 1, n);
      }
    }
  }

  // The name has been imported before, other than by a star import.
  predicate Taken(globals: set<Name>, xs: seq<Import>, j: nat, n: Name)
    requires j <= |xs|
  {
    Aliased(xs, j, n) || (n !in globals && Specific(xs, j, n))
  }

  // What is wrong with import j, given those in front of it.
  function Complaint(globals: set<Name>, xs: seq<Import>, j: nat): Option<Error>
    requires j < |xs|
  {
    match xs[j]
    case Alias(n) => if Taken(globals, xs, j, n) then Some(AlreadyImported(n)) else None
    case Star(_) => None
    case Member(n, values) =>
      if values == {} then Some(NotFound(n))
      else if Taken(globals, xs, j, n) || (n !in globals && |values| > 1) then Some(AlreadyImported(n))
      else None
  }

  // The pass fails if and only if there is something wrong with some import, and
  // it reports the first.
  lemma {:induction false} FailsIff(globals: set<Name>, xs: seq<Import>, i: nat, before: Symbols)
    requires i <= |xs|
    ensures Run(globals, xs, i, before).Failed? <==> exists j :: 0 <= j < i && Complaint(globals, xs, j).Some?
    ensures forall j :: 0 <= j < i && Complaint(globals, xs, j).Some? && (forall k :: 0 <= k < j ==> Complaint(globals, xs, k).None?) ==>
              Run(globals, xs, i, before) == Failed(Complaint(globals, xs, j).value)
  {
    hide Complaint, Step;
    if i > 0 {
      FailsIff(globals, xs, i - 1, before);
      StepFails(globals, xs, i, before);
    }
  }

  lemma StepFails(globals: set<Name>, xs: seq<Import>, i: nat, before: Symbols)
    requires 0 < i <= |xs|
    ensures var p, p' := Run(globals, xs, i - 1, before), Run(globals, xs, i, before);
            && (p.Failed? ==> p' == p)
            && (p.Pass? ==> match Complaint(globals, xs, i - 1)
                            case Some(e) => p' == Failed(e)
                            case None => p'.Pass?)
  {
    if Run(globals, xs, i - 1, before).Pass? {
      RunResolves(globals, xs, i - 1, before);
      var specific := Run(globals, xs, i - 1, before).specific;
      assert forall n :: n in specific <==> Taken(globals, xs, i - 1, n);
    }
  }

  // Running the pass again, over what it produced, changes nothing.
  lemma {:induction false} RunTwice(globals: set<Name>, xs: seq<Import>, before: Symbols)
    requires Run(globals, xs, |xs|, before).Pass?
    ensures var r := Run(globals, xs, |xs|, before).result;
            var again := Run(globals, xs, |xs|, r);
            again.Pass? && forall n :: Syms(again.result, n) == Syms(r, n)
  {
    var r := Run(globals, xs, |xs|, before).result;
    SameFate(globals, xs, |xs|, before, r);
    RunResolves(globals, xs, |xs|, before);
    RunResolves(globals, xs, |xs|, r);
    var again := Run(globals, xs, |xs|, r).result;
    forall n ensures Syms(again, n) == Syms(r, n) {
      if n !in globals && Specific(xs, |xs|, n) {
        var j :| 0 <= j < |xs| && xs[j].Member? && xs[j].name == n;
      }
    }
  }

  // Whether the pass fails does not depend on what is there already.
  lemma {:induction false} SameFate(globals: set<Name>, xs: seq<Import>, i: nat, before: Symbols, before': Symbols)
    requires i <= |xs| && Run(globals, xs, i, before).Pass?
    ensures Run(globals, xs, i, before').Pass? && Run(globals, xs, i, before').specific == Run(globals, xs, i, before).specific
  {
    if i > 0 { SameFate(globals, xs, i - 1, before, before'); }
  }

  // The order of a star import and a module import of the same name shows.
  lemma AliasOrder(n: Name, v: Value, before: Symbols)
    requires v !in Syms(before, n)
    ensures var first, last := [Alias(n), Star(map[n := {v}])], [Star(map[n := {v}]), Alias(n)];
            && Run({}, first, 2, before).Pass? && Syms(Run({}, first, 2, before).result, n) == Syms(before, n)
            && Run({}, last, 2, before).Pass? && Syms(Run({}, last, 2, before).result, n) == Syms(before, n) + {v}
  {
    var first, last := [Alias(n), Star(map[n := {v}])], [Star(map[n := {v}]), Alias(n)];
    assert Run({}, first, 0, before) == Pass(before, {}) && Run({}, last, 0, before) == Pass(before, {});
    assert Run({}, first, 1, before) == Pass(before, {n});
    assert Run({}, last, 1, before).Pass? && Syms(Run({}, last, 1, before).result, n) == Syms(before, n) + {v};
  }

  // ----- the pass, in place -------------------------------------------------

  // insertImported, for the values under one name of a star import.
  method InsertImported(globals: set<Name>, n: Name, values: set<Value>, result: Symbols, specific: set<Name>) returns (result': Symbols)
    ensures result' == if n in specific || n in globals then result else result[n := Syms(result, n) + values]
  {
    result' := result;
    if n in specific { return; }
    if n !in globals { result' := result[n := Syms(result, n) + values]; }
  }

  method AddImportedSymbols(globals: set<Name>, xs: seq<Import>, before: Symbols) returns (p: Pass)
    ensures p == Run(globals, xs, |xs|, before)
    ensures p.Pass? ==> Resolves(globals, xs, |xs|, before, p.result)
  {
    var result, specific := before, {};
    var i := 0;
    while i < |xs|
      invariant i <= |xs| && Run(globals, xs, i, before) == Pass(result, specific)
      decreases |xs| - i
    {
      match xs[i] {
        case Alias(n) =>
          if n in specific {
            FailedStays(globals, xs, i + 1, |xs|, before);
            return Failed(AlreadyImported(n));
          }
          specific := specific + {n};
        case Star(symbols) =>
          result := ImportStar(globals, symbols, result, specific);
        case Member(n, values) =>
          var e := if values == {} then Some(NotFound(n))
                   else if n in specific || (n !in globals && |values| > 1) then Some(AlreadyImported(n))
                   else None;
          if e.Some? {
            FailedStays(globals, xs, i + 1, |xs|, before);
            return Failed(e.value);
          }
          if n !in globals { result, specific := result[n := values], specific + {n}; }
      }
      i := i + 1;
    }
    RunResolves(globals, xs, |xs|, before);
    return Pass(result, specific);
  }

  lemma FailedStays(globals: set<Name>, xs: seq<Import>, i: nat, j: nat, before: Symbols)
    requires i <= j <= |xs| && Run(globals, xs, i, before).Failed?
    ensures Run(globals, xs, j, before) == Run(globals, xs, i, before)
  {
    if i < j { FailedStays(globals, xs, i, j - 1, before); }
  }

  method ImportStar(globals: set<Name>, symbols: Symbols, result: Symbols, specific: set<Name>) returns (result': Symbols)
    ensures Pass(result', specific) == Step(globals, Star(symbols), Pass(result, specific))
  {
    hide Copied;
    result' := result;
    var names := symbols.Keys;
    NothingCopied(globals, symbols, result, specific);
    while names != {}
      invariant names <= symbols.Keys && Copied(globals, symbols, result, specific, names, result')
      decreases |names|
    {
      var n :| n in names;
      ghost var was := result';
      result' := InsertImported(globals, n, symbols[n], result', specific);
      OneCopied(globals, symbols, result, specific, names, n, was, result');
      names := names - {n};
    }
    AllCopied(globals, symbols, result, specific, result');
  }

  // All symbols but those in names have been copied.
  ghost predicate Copied(globals: set<Name>, symbols: Symbols, result: Symbols, specific: set<Name>, names: set<Name>, result': Symbols) {
    && result'.Keys == result.Keys + (symbols.Keys - names - globals - specific)
    && forall n :: Syms(result', n) ==
         Syms(result, n) + if n in names || n in globals || n in specific then {} else Syms(symbols, n)
  }

  lemma NothingCopied(globals: set<Name>, symbols: Symbols, result: Symbols, specific: set<Name>)
    ensures Copied(globals, symbols, result, specific, symbols.Keys, result)
  {
  }

  lemma OneCopied(globals: set<Name>, symbols: Symbols, result: Symbols, specific: set<Name>, names: set<Name>, n: Name, was: Symbols, now: Symbols)
    requires Copied(globals, symbols, result, specific, names, was) && n in names && n in symbols
    requires now == if n in specific || n in globals then was else was[n := Syms(was, n) + symbols[n]]
    ensures Copied(globals, symbols, result, specific, names - {n}, now)
  {
    assert now.Keys == result.Keys + (symbols.Keys - (names - {n}) - globals - specific);
  }

  lemma AllCopied(globals: set<Name>, symbols: Symbols, result: Symbols, specific: set<Name>, result': Symbols)
    requires Copied(globals, symbols, result, specific, {}, result')
    ensures Pass(result', specific) == Step(globals, Star(symbols), Pass(result, specific))
  {
    var want := Step(globals, Star(symbols), Pass(result, specific)).result;
    forall n | n in want ensures n in result' && result'[n] == want[n] {
      assert Syms(result', n) == result'[n];
    }
    assert result' == want;
  }
}
