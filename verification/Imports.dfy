// Symbol tables of modules that star-import each other, possibly in cycles: the
// depth-first search of getPublicSymbols and lookupPublic, against the modules
// that can be reached.
module Imports {

  type Module = nat
  type Name = string
  type Value = nat      // ObjectPtr: two globals are the same only if identical

  datatype Global = Global(value: Value, isPublic: bool)
  datatype Import = Import(from: Module, isPublic: bool)

  datatype Graph = Graph(globals: map<Module, map<Name, Global>>, imports: map<Module, seq<Import>>)

  // publicSymbols of every module.
  type Tables = map<Module, map<Name, set<Value>>>

  predicate Closed(g: Graph) {
    && g.imports.Keys == g.globals.Keys
    && forall m, i :: m in g.imports && 0 <= i < |g.imports[m]| ==> g.imports[m][i].from in g.globals
  }

  function Syms(t: Tables, m: Module, n: Name): set<Value> {
    if m in t && n in t[m] then t[m][n] else {}
  }

  // The module's own globals, public or not, hide what it imports.
  predicate Defines(g: Graph, m: Module, n: Name) {
    m in g.globals && n in g.globals[m]
  }

  predicate Exports(g: Graph, m: Module, n: Name, v: Value) {
    Defines(g, m, n) && g.globals[m][n] == Global(v, true)
  }

  // ----- reachability -------------------------------------------------------

  predicate Links(g: Graph, m: Module, m': Module) {
    m in g.imports && Import(m', true) in g.imports[m]
  }

  // v is public under n at the end of the import path p, no earlier module of
  // which defines n, and no module of which is in avoid.
  predicate Path(g: Graph, p: seq<Module>, n: Name, v: Value, avoid: set<Module>) {
    && p != [] && Exports(g, p[|p| - 1], n, v)
    && (forall i :: 0 <= i < |p| ==> p[i] !in avoid)
    && (forall i :: 0 <= i < |p| - 1 ==> Links(g, p[i], p[i + 1]) && !Defines(g, p[i], n))
  }

  ghost predicate Reaches(g: Graph, m: Module, n: Name, v: Value, avoid: set<Module> := {}) {
    exists p :: Path(g, p, n, v, avoid) && p[0] == m
  }

  lemma Direct(g: Graph, m: Module, n: Name, v: Value)
    requires Exports(g, m, n, v)
    ensures Reaches(g, m, n, v)
  {
    assert Path(g, [m], n, v, {});
  }

  lemma Through(g: Graph, m: Module, m': Module, n: Name, v: Value)
    requires Links(g, m, m') && !Defines(g, m, n) && Reaches(g, m', n, v)
    ensures Reaches(g, m, n, v)
  {
    var p :| Path(g, p, n, v, {}) && p[0] == m';
    var q := [m] + p;
    forall i | 0 <= i < |q| - 1 ensures Links(g, q[i], q[i + 1]) && !Defines(g, q[i], n) {
      if i > 0 { assert q[i] == p[i - 1] && q[i + 1] == p[i]; }
    }
    assert Path(g, q, n, v, {});
  }

  lemma Suffix(g: Graph, p: seq<Module>, i: nat, n: Name, v: Value, avoid: set<Module>)
    requires Path(g, p, n, v, avoid) && i < |p|
    ensures Path(g, p[i..], n, v, avoid)
  {
  }

  // A path can be cut to leave its first module for good.
  lemma {:induction false} LeaveFirst(g: Graph, p: seq<Module>, n: Name, v: Value, avoid: set<Module>) returns (m': Module)
    requires Path(g, p, n, v, avoid)
    ensures Exports(g, p[0], n, v)
            || (Links(g, p[0], m') && !Defines(g, p[0], n) && Reaches(g, m', n, v, avoid + {p[0]}))
    decreases |p|
  {
    m' := p[0];
    if exists i :: 0 < i < |p| && p[i] == p[0] {
      var i :| 0 < i < |p| && p[i] == p[0];
      Suffix(g, p, i, n, v, avoid);
      m' := LeaveFirst(g, p[i..], n, v, avoid);
    } else if |p| > 1 {
      m' := p[1];
      Suffix(g, p, 1, n, v, avoid);
      assert Path(g, p[1..], n, v, avoid + {p[0]});
    }
  }

  // ----- the search ---------------------------------------------------------

  // Copying the symbols of from into m (insertImported of a star import).
  function Merge(g: Graph, t: Tables, m: Module, from: Module): Tables
    requires m in t && from in t && m in g.globals
  {
    t[m := map n | n in t[m].Keys + (t[from].Keys - g.globals[m].Keys) ::
             Syms(t, m, n) + if n in g.globals[m] then {} else Syms(t, from, n)]
  }

  // getPublicSymbols: loading are the modules on the stack, loaded those whose
  // tables are complete.
  function Get(g: Graph, loaded: set<Module>, loading: set<Module>, t: Tables, m: Module): (t': Tables)
    requires Closed(g) && t.Keys == g.globals.Keys && m in t
    ensures t'.Keys == t.Keys
    decreases |g.globals.Keys - loading|, 0
  {
    if m in loaded || m in loading then t
    else
      SmallerRest(g.globals.Keys, loading, m);
      Add(g, loaded, loading + {m}, t, m, |g.imports[m]|)
  }

  lemma SmallerRest(all: set<Module>, loading: set<Module>, m: Module)
    requires m in all && m !in loading
    ensures |all - (loading + {m})| < |all - loading|
  {
    assert all - loading == (all - (loading + {m})) + {m};
  }

  // addImportedSymbols, after i imports.
  function Add(g: Graph, loaded: set<Module>, loading: set<Module>, t: Tables, m: Module, i: nat): (t': Tables)
    requires Closed(g) && t.Keys == g.globals.Keys && m in t && i <= |g.imports[m]|
    ensures t'.Keys == t.Keys
    decreases |g.globals.Keys - loading|, 1, i
  {
    if i == 0 then t
    else
      var t1 := Add(g, loaded, loading, t, m, i - 1);
      var x := g.imports[m][i - 1];
      if !x.isPublic then t1 else Merge(g, Get(g, loaded, loading, t1, x.from), m, x.from)
  }

  // ----- what the search keeps ----------------------------------------------

  ghost predicate Seeded(g: Graph, t: Tables) {
    forall m, n, v :: Exports(g, m, n, v) ==> v in Syms(t, m, n)
  }

  ghost predicate SoundFor(g: Graph, t: Tables, m: Module) {
    forall n, v :: v in Syms(t, m, n) ==> Reaches(g, m, n, v)
  }

  // No table holds anything that cannot be reached.
  ghost predicate Sound(g: Graph, t: Tables) {
    forall m :: m in t ==> SoundFor(g, t, m)
  }

  // The table of m holds everything that can be reached without entering avoid.
  ghost predicate CompleteFor(g: Graph, t: Tables, m: Module, avoid: set<Module>) {
    forall n, v :: Reaches(g, m, n, v, avoid) ==> v in Syms(t, m, n)
  }

  ghost predicate Exact(g: Graph, t: Tables, m: Module) {
    SoundFor(g, t, m) && CompleteFor(g, t, m, {})
  }

  ghost predicate Grown(t: Tables, t': Tables) {
    t.Keys == t'.Keys && forall m, n :: Syms(t, m, n) <= Syms(t', m, n)
  }

  ghost predicate Good(g: Graph, loaded: set<Module>, t: Tables) {
    && Closed(g) && t.Keys == g.globals.Keys && Seeded(g, t) && Sound(g, t)
    && forall m :: m in loaded ==> m in t && Exact(g, t, m)
  }

  lemma MergeSyms(g: Graph, t: Tables, m: Module, from: Module)
    requires m in t && from in t && m in g.globals
    ensures var t' := Merge(g, t, m, from);
            && Grown(t, t')
            && (forall m', n :: m' != m ==> Syms(t', m', n) == Syms(t, m', n))
            && (forall n :: Syms(t', m, n) == Syms(t, m, n) + if Defines(g, m, n) then {} else Syms(t, from, n))
  {
  }

  lemma GoodGrown(g: Graph, loaded: set<Module>, t: Tables, t': Tables)
    requires Good(g, loaded, t) && Grown(t, t') && Sound(g, t')
    ensures Good(g, loaded, t')
  {
    forall m, n, v | Exports(g, m, n, v) ensures v in Syms(t', m, n) {
      assert v in Syms(t, m, n);
    }
    forall m | m in loaded ensures m in t' && Exact(g, t', m) {
      assert Exact(g, t, m);
    }
  }

  lemma MergeGood(g: Graph, loaded: set<Module>, t: Tables, m: Module, from: Module)
    requires Good(g, loaded, t) && m in t && from in t && Links(g, m, from)
    ensures Good(g, loaded, Merge(g, t, m, from))
  {
    var t' := Merge(g, t, m, from);
    MergeSyms(g, t, m, from);
    forall m', n, v | m' in t' && v in Syms(t', m', n) ensures Reaches(g, m', n, v) {
      assert SoundFor(g, t, m') && SoundFor(g, t, from);
      if v !in Syms(t, m', n) { Through(g, m, from, n, v); }
    }
    GoodGrown(g, loaded, t, t');
  }

  lemma GoodIs(g: Graph, loaded: set<Module>, t: Tables)
    requires Good(g, loaded, t)
    ensures t.Keys == g.globals.Keys && Closed(g)
    ensures forall m :: m in loaded ==> m in t && Exact(g, t, m)
  {
  }

  // The search completes the table of m as far as it can without entering the
  // modules already on the stack, and leaves every table sound.
  lemma {:induction false} GetGood(g: Graph, loaded: set<Module>, loading: set<Module>, t: Tables, m: Module)
    requires Good(g, loaded, t) && m in t
    ensures var t' := Get(g, loaded, loading, t, m);
            && Good(g, loaded, t') && Grown(t, t')
            && (m !in loading ==> CompleteFor(g, t', m, loading))
    decreases |g.globals.Keys - loading|, 0
  {
    hide Good, Path, Merge, Sound, Seeded;
    GoodIs(g, loaded, t);
    if m in loaded {
      FewerPaths(g, t, m, loading);
    } else if m !in loading {
      SmallerRest(g.globals.Keys, loading, m);
      AddGood(g, loaded, loading + {m}, t, m, |g.imports[m]|);
      var t' := Get(g, loaded, loading, t, m);
      forall n, v | Reaches(g, m, n, v, loading) ensures v in Syms(t', m, n) {
        AllImported(g, loaded, t', m, loading, n, v);
      }
    }
  }

  lemma FewerPaths(g: Graph, t: Tables, m: Module, avoid: set<Module>)
    requires Exact(g, t, m)
    ensures CompleteFor(g, t, m, avoid)
  {
    forall n, v | Reaches(g, m, n, v, avoid) ensures v in Syms(t, m, n) {
      var p :| Path(g, p, n, v, avoid) && p[0] == m;
      assert Path(g, p, n, v, {});
    }
  }

  // Everything reachable through one of the first i imports has been copied.
  ghost predicate Imported(g: Graph, t: Tables, m: Module, i: nat, loading: set<Module>)
    requires m in g.imports && i <= |g.imports[m]|
  {
    forall j, n, v ::
      0 <= j < i && g.imports[m][j].isPublic && !Defines(g, m, n) && Reaches(g, g.imports[m][j].from, n, v, loading) ==>
        v in Syms(t, m, n)
  }

  lemma {:induction false} AddGood(g: Graph, loaded: set<Module>, loading: set<Module>, t: Tables, m: Module, i: nat)
    requires Good(g, loaded, t) && m in t && m in loading && i <= |g.imports[m]|
    ensures var t' := Add(g, loaded, loading, t, m, i);
            Good(g, loaded, t') && Grown(t, t') && Imported(g, t', m, i, loading)
    decreases |g.globals.Keys - loading|, 1, i
  {
    hide Good, Path, Merge, Sound, Seeded, CompleteFor, Reaches;
    GoodIs(g, loaded, t);
    if i > 0 {
      AddGood(g, loaded, loading, t, m, i - 1);
      var t1 := Add(g, loaded, loading, t, m, i - 1);
      var x := g.imports[m][i - 1];
      if x.isPublic {
        GetGood(g, loaded, loading, t1, x.from);
        var t2 := Get(g, loaded, loading, t1, x.from);
        MergeGood(g, loaded, t2, m, x.from);
        MergeSyms(g, t2, m, x.from);
        NewlyImported(g, t1, t2, Merge(g, t2, m, x.from), m, i, loading);
      }
    }
  }

  lemma NewlyImported(g: Graph, t1: Tables, t2: Tables, t3: Tables, m: Module, i: nat, loading: set<Module>)
    requires m in g.imports && 0 < i <= |g.imports[m]| && m in loading && Grown(t1, t2) && Grown(t2, t3)
    requires var x := g.imports[m][i - 1];
             && x.isPublic && (x.from !in loading ==> CompleteFor(g, t2, x.from, loading))
             && (forall n :: Syms(t3, m, n) == Syms(t2, m, n) + if Defines(g, m, n) then {} else Syms(t2, x.from, n))
    requires Imported(g, t1, m, i - 1, loading)
    ensures Imported(g, t3, m, i, loading)
  {
    var x := g.imports[m][i - 1];
    forall j, n, v | 0 <= j < i && g.imports[m][j].isPublic && !Defines(g, m, n) && Reaches(g, g.imports[m][j].from, n, v, loading)
      ensures v in Syms(t3, m, n)
    {
      if j < i - 1 {
        assert v in Syms(t1, m, n);
      } else {
        var p :| Path(g, p, n, v, loading) && p[0] == x.from;
        assert v in Syms(t2, x.from, n);
      }
    }
  }

  lemma AllImported(g: Graph, loaded: set<Module>, t: Tables, m: Module, loading: set<Module>, n: Name, v: Value)
    requires Good(g, loaded, t) && m in g.imports && Imported(g, t, m, |g.imports[m]|, loading + {m})
    requires Reaches(g, m, n, v, loading)
    ensures v in Syms(t, m, n)
  {
    hide Sound;
    var p :| Path(g, p, n, v, loading) && p[0] == m;
    var m' := LeaveFirst(g, p, n, v, loading);
    if !Exports(g, m, n, v) {
      var j :| 0 <= j < |g.imports[m]| && g.imports[m][j] == Import(m', true);
      assert g.imports[m][j].from == m';
    }
  }

  // ----- lookups ------------------------------------------------------------

  datatype State = State(tables: Tables, loaded: set<Module>)

  datatype Answer = NotFound | Found(value: Value) | Ambiguous(candidates: set<Value>)

  // What a set of candidates amounts to.
  ghost predicate Amounts(a: Answer, vs: set<Value>) {
    match a
    case NotFound => vs == {}
    case Found(v) => vs == {v}
    case Ambiguous(cs) => cs == vs && |vs| > 1
  }

  // lookupPublic: the state after looking n up in m.
  function Consult(g: Graph, s: State, m: Module, n: Name): State
    requires Closed(g) && s.tables.Keys == g.globals.Keys && m in s.tables
  {
    if Syms(s.tables, m, n) == {} && m !in s.loaded then State(Get(g, s.loaded, {}, s.tables, m), s.loaded + {m}) else s
  }

  // The tables as the loader leaves them.
  function Fresh(g: Graph): State {
    State(map m | m in g.globals :: map n | n in g.globals[m] && g.globals[m][n].isPublic :: {g.globals[m][n].value}, {})
  }

  lemma FreshGood(g: Graph)
    requires Closed(g)
    ensures Good(g, {}, Fresh(g).tables)
  {
    var t := Fresh(g).tables;
    forall m, n, v | v in Syms(t, m, n) ensures Reaches(g, m, n, v) {
      Direct(g, m, n, v);
    }
  }

  // A module looked up in vain, or first looked up with nothing under the name,
  // is loaded and its table is exact; otherwise the answer rests on whatever
  // the table held before.
  lemma ConsultGood(g: Graph, s: State, m: Module, n: Name)
    requires Good(g, s.loaded, s.tables) && m in s.tables
    ensures var s' := Consult(g, s, m, n);
            && Good(g, s'.loaded, s'.tables) && Grown(s.tables, s'.tables)
            && (Syms(s'.tables, m, n) == {} ==> m in s'.loaded)
            && (m in s.loaded || Syms(s.tables, m, n) == {} ==> m in s'.loaded)
  {
    hide Path, Reaches;
    if Syms(s.tables, m, n) == {} && m !in s.loaded {
      GetGood(g, s.loaded, {}, s.tables, m);
      var t' := Get(g, s.loaded, {}, s.tables, m);
      assert SoundFor(g, t', m);
    }
  }

  // After any lookups, in any order: nothing is found only where nothing can be
  // reached, what is found can be reached, and an ambiguity is one.
  lemma AnswerSound(g: Graph, s: State, m: Module, n: Name, a: Answer)
    requires Good(g, s.loaded, s.tables) && m in s.tables && Amounts(a, Syms(Consult(g, s, m, n).tables, m, n))
    ensures match a
            case NotFound => forall v :: !Reaches(g, m, n, v)
            case Found(v) => Reaches(g, m, n, v)
            case Ambiguous(vs) => exists v, v' :: v in vs && v' in vs && v != v' && Reaches(g, m, n, v) && Reaches(g, m, n, v')
  {
    hide Path, Reaches;
    ConsultGood(g, s, m, n);
    var t := Consult(g, s, m, n).tables;
    assert SoundFor(g, t, m);
    match a
    case NotFound =>
      assert CompleteFor(g, t, m, {});
    case Found(v) =>
    case Ambiguous(vs) =>
      var v :| v in vs;
      assert vs != {v};
      var v' :| v' in vs && v' != v;
  }

  // The answer is the right one, ambiguities included, if the module is loaded
  // or its table has nothing under the name when the lookup begins.
  lemma AnswerExact(g: Graph, s: State, m: Module, n: Name)
    requires Good(g, s.loaded, s.tables) && m in s.tables
    requires m in s.loaded || Syms(s.tables, m, n) == {}
    ensures forall v :: v in Syms(Consult(g, s, m, n).tables, m, n) <==> Reaches(g, m, n, v)
  {
    hide Path, Reaches;
    ConsultGood(g, s, m, n);
    assert Exact(g, Consult(g, s, m, n).tables, m);
  }

  // So it is nothing, the one value, or an ambiguity, exactly as there is no value,
  // one, or more than one to be reached.
  lemma AnswerRight(g: Graph, s: State, m: Module, n: Name, a: Answer)
    requires Good(g, s.loaded, s.tables) && m in s.tables && (m in s.loaded || Syms(s.tables, m, n) == {})
    requires Amounts(a, Syms(Consult(g, s, m, n).tables, m, n))
    ensures a.NotFound? <==> forall v :: !Reaches(g, m, n, v)
    ensures forall v :: a == Found(v) <==> Reaches(g, m, n, v) && forall v' :: Reaches(g, m, n, v') ==> v' == v
    ensures a.Ambiguous? <==> exists v, v' :: v != v' && Reaches(g, m, n, v) && Reaches(g, m, n, v')
  {
    hide Path, Reaches, Consult;
    AnswerExact(g, s, m, n);
    AnswerSound(g, s, m, n, a);
    var vs := Syms(Consult(g, s, m, n).tables, m, n);
    forall v | Reaches(g, m, n, v) && forall v' :: Reaches(g, m, n, v') ==> v' == v
      ensures a == Found(v)
    {
      assert v in vs;
    }
  }

  // ----- acyclic graphs -----------------------------------------------------

  // A region without cycles or ways out: from a ranked module every public
  // import leads to a module of lower rank. What is not ranked may have cycles.
  predicate Ranked(g: Graph, rank: map<Module, nat>) {
    forall m, i :: m in rank && m in g.imports && 0 <= i < |g.imports[m]| && g.imports[m][i].isPublic ==>
      g.imports[m][i].from in rank && rank[g.imports[m][i].from] < rank[m]
  }

  // From m, none of the ranked modules in loading can be met again.
  predicate Above(rank: map<Module, nat>, loading: set<Module>, m: Module) {
    forall l :: l in loading && l in rank ==> m in rank && rank[l] > rank[m]
  }

  // m itself is among them.
  predicate AtLeast(rank: map<Module, nat>, loading: set<Module>, m: Module) {
    forall l :: l in loading && l in rank ==> m in rank && rank[l] >= rank[m]
  }

  // Untouched, or exact.
  ghost predicate Settled(g: Graph, t: Tables, m: Module) {
    Exact(g, t, m) || forall n :: Syms(t, m, n) == Syms(Fresh(g).tables, m, n)
  }

  ghost predicate AllSettled(g: Graph, t: Tables, rank: map<Module, nat>, except: set<Module>) {
    forall m :: m in t && m in rank && m !in except ==> Settled(g, t, m)
  }

  lemma {:induction false} PathFalls(g: Graph, rank: map<Module, nat>, p: seq<Module>, n: Name, v: Value, avoid: set<Module>, i: nat)
    requires Closed(g) && Ranked(g, rank) && Path(g, p, n, v, avoid) && p[0] in rank && i < |p|
    ensures p[i] in rank && rank[p[i]] <= rank[p[0]]
  {
    if i > 0 {
      PathFalls(g, rank, p, n, v, avoid, i - 1);
      assert Links(g, p[i - 1], p[i]);
      var j :| 0 <= j < |g.imports[p[i - 1]]| && g.imports[p[i - 1]][j] == Import(p[i], true);
      assert g.imports[p[i - 1]][j].from == p[i];
    }
  }

  // Modules on the stack cannot be met again.
  lemma NothingAvoided(g: Graph, rank: map<Module, nat>, m: Module, n: Name, v: Value, loading: set<Module>)
    requires Closed(g) && Ranked(g, rank) && m in rank && Reaches(g, m, n, v)
    requires Above(rank, loading, m)
    ensures Reaches(g, m, n, v, loading)
  {
    var p :| Path(g, p, n, v, {}) && p[0] == m;
    forall i | 0 <= i < |p| ensures p[i] !in loading { PathFalls(g, rank, p, n, v, {}, i); }
    assert Path(g, p, n, v, loading);
  }

  lemma {:induction false} GetSettles(g: Graph, rank: map<Module, nat>, loaded: set<Module>, loading: set<Module>, t: Tables, m: Module)
    requires Good(g, loaded, t) && m in t && Ranked(g, rank) && AllSettled(g, t, rank, loading)
    requires Above(rank, loading, m)
    ensures AllSettled(g, Get(g, loaded, loading, t, m), rank, loading)
    decreases |g.globals.Keys - loading|, 0
  {
    hide Path, Reaches, Merge, Sound, Seeded, Exact, Fresh, SoundFor, CompleteFor;
    if m !in loaded && m !in loading {
      SmallerRest(g.globals.Keys, loading, m);
      AddSettles(g, rank, loaded, loading + {m}, t, m, |g.imports[m]|);
      GetGood(g, loaded, loading, t, m);
      var t' := Get(g, loaded, loading, t, m);
      if m in rank {
        forall n, v | Reaches(g, m, n, v) ensures Reaches(g, m, n, v, loading) {
          NothingAvoided(g, rank, m, n, v, loading);
        }
        NowExact(g, t', m, loading) by { GoodSound(g, loaded, t', m); }
      }
    }
  }

  lemma GoodSound(g: Graph, loaded: set<Module>, t: Tables, m: Module)
    requires Good(g, loaded, t) && m in t
    ensures SoundFor(g, t, m)
  {
  }

  lemma NowExact(g: Graph, t: Tables, m: Module, loading: set<Module>)
    requires SoundFor(g, t, m) && CompleteFor(g, t, m, loading)
    requires forall n, v :: Reaches(g, m, n, v) ==> Reaches(g, m, n, v, loading)
    ensures Exact(g, t, m)
  {
    hide Reaches;
  }

  lemma {:induction false} AddSettles(g: Graph, rank: map<Module, nat>, loaded: set<Module>, loading: set<Module>, t: Tables, m: Module, i: nat)
    requires Good(g, loaded, t) && m in t && m in loading && Ranked(g, rank) && AllSettled(g, t, rank, loading) && i <= |g.imports[m]|
    requires AtLeast(rank, loading, m)
    ensures AllSettled(g, Add(g, loaded, loading, t, m, i), rank, loading)
    decreases |g.globals.Keys - loading|, 1, i
  {
    hide Path, Reaches, Merge, Sound, Seeded, Exact, Fresh, SoundFor, CompleteFor;
    if i > 0 {
      AddSettles(g, rank, loaded, loading, t, m, i - 1);
      AddGood(g, loaded, loading, t, m, i - 1);
      var t1 := Add(g, loaded, loading, t, m, i - 1);
      var x := g.imports[m][i - 1];
      if x.isPublic {
        GetSettles(g, rank, loaded, loading, t1, x.from);
        var t2 := Get(g, loaded, loading, t1, x.from);
        MergeSyms(g, t2, m, x.from);
        var t3 := Merge(g, t2, m, x.from);
        forall m' | m' in t3 && m' in rank && m' !in loading ensures Settled(g, t3, m') {
          SettledSame(g, t2, t3, m');
        }
      }
    }
  }

  lemma SettledSame(g: Graph, t: Tables, t': Tables, m: Module)
    requires Settled(g, t, m) && forall n :: Syms(t', m, n) == Syms(t, m, n)
    ensures Settled(g, t', m)
  {
    hide Reaches;
  }

  // Without import cycles the answer is always the right one, whatever has been
  // looked up before.
  lemma AcyclicExact(g: Graph, rank: map<Module, nat>, s: State, m: Module, n: Name)
    requires Good(g, s.loaded, s.tables) && m in s.tables && m in rank && Ranked(g, rank) && AllSettled(g, s.tables, rank, {})
    ensures var s' := Consult(g, s, m, n);
            && AllSettled(g, s'.tables, rank, {})
            && forall v :: v in Syms(s'.tables, m, n) <==> Reaches(g, m, n, v)
  {
    hide Path;
    var s' := Consult(g, s, m, n);
    if m in s.loaded || Syms(s.tables, m, n) == {} {
      AnswerExact(g, s, m, n);
      GetSettles(g, rank, s.loaded, {}, s.tables, m);
    } else if !Exact(g, s.tables, m) {
      forall v | Reaches(g, m, n, v) ensures v in Syms(s.tables, m, n) {
        OwnHides(g, m, n, v);
      }
      assert SoundFor(g, s.tables, m);
    }
  }

  lemma ConsultSettles(g: Graph, rank: map<Module, nat>, s: State, m: Module, n: Name)
    requires Good(g, s.loaded, s.tables) && m in s.tables && Ranked(g, rank) && AllSettled(g, s.tables, rank, {})
    ensures AllSettled(g, Consult(g, s, m, n).tables, rank, {})
  {
    hide Path, Settled;
    GetSettles(g, rank, s.loaded, {}, s.tables, m);
  }

  lemma OwnHides(g: Graph, m: Module, n: Name, v: Value)
    requires Defines(g, m, n) && Reaches(g, m, n, v)
    ensures Exports(g, m, n, v)
  {
    var p :| Path(g, p, n, v, {}) && p[0] == m;
  }

  // ----- any sequence of lookups --------------------------------------------

  datatype Query = Query(m: Module, n: Name)

  // The state after looking up each of the queries in turn.
  function After(g: Graph, qs: seq<Query>): (s: State)
    requires Closed(g) && forall i :: 0 <= i < |qs| ==> qs[i].m in g.globals
    ensures s.tables.Keys == g.globals.Keys
  {
    if qs == [] then Fresh(g)
    else
      var s := After(g, qs[..|qs| - 1]);
      Consult(g, s, qs[|qs| - 1].m, qs[|qs| - 1].n)
  }

  lemma {:induction false} AfterGood(g: Graph, qs: seq<Query>)
    requires Closed(g) && forall i :: 0 <= i < |qs| ==> qs[i].m in g.globals
    ensures Good(g, After(g, qs).loaded, After(g, qs).tables)
  {
    if qs == [] {
      FreshGood(g);
    } else {
      AfterGood(g, qs[..|qs| - 1]);
      ConsultGood(g, After(g, qs[..|qs| - 1]), qs[|qs| - 1].m, qs[|qs| - 1].n);
    }
  }

  // No lookup in a module from which no import cycle can be reached is
  // influenced by those before it, wherever they were.
  lemma {:induction false} AcyclicAfter(g: Graph, rank: map<Module, nat>, qs: seq<Query>)
    requires Closed(g) && Ranked(g, rank) && forall i :: 0 <= i < |qs| ==> qs[i].m in g.globals
    ensures AllSettled(g, After(g, qs).tables, rank, {})
    ensures qs != [] && qs[|qs| - 1].m in rank ==>
              var q := qs[|qs| - 1];
              forall v :: v in Syms(After(g, qs).tables, q.m, q.n) <==> Reaches(g, q.m, q.n, v)
  {
    hide Reaches, Consult;
    if qs != [] {
      AcyclicAfter(g, rank, qs[..|qs| - 1]);
      AfterGood(g, qs[..|qs| - 1]);
      var s, q := After(g, qs[..|qs| - 1]), qs[|qs| - 1];
      ConsultSettles(g, rank, s, q.m, q.n);
      if q.m in rank { AcyclicExact(g, rank, s, q.m, q.n); }
    }
  }

  // ----- a cycle ------------------------------------------------------------

  const A: Module := 0
  const B: Module := 1
  const C: Module := 2
  const D: Module := 3

  // a and b import each other; a also imports d, b also imports c; c and d both
  // export x.
  function Cycle(): Graph {
    Graph(map[A := map[], B := map[], C := map["x" := Global(1, true)], D := map["x" := Global(2, true)]],
          map[A := [Import(B, true), Import(D, true)], B := [Import(C, true), Import(A, true)], C := [], D := []])
  }

  lemma GetLeaf(g: Graph, loading: set<Module>, t: Tables, m: Module)
    requires Closed(g) && t.Keys == g.globals.Keys && m in t && g.imports[m] == []
    ensures Get(g, {}, loading, t, m) == t
  {
  }

  // A module with two imports: its table after the first, t1, and after both.
  lemma GetTwo(g: Graph, loading: set<Module>, t: Tables, t1: Tables, m: Module, x: Module, y: Module)
    requires Closed(g) && t.Keys == g.globals.Keys && m in t && m !in loading && x in t
    requires g.imports[m] == [Import(x, true), Import(y, true)]
    requires t1 == Add(g, {}, loading + {m}, t, m, 1)
    ensures y in t1 && t1 == Merge(g, Get(g, {}, loading + {m}, t, x), m, x)
    ensures Get(g, {}, loading, t, m) == Merge(g, Get(g, {}, loading + {m}, t1, y), m, y)
  {
    hide Merge;
    assert g.imports[m][0].from == x && g.imports[m][1].from == y;
    assert Add(g, {}, loading + {m}, t, m, 0) == t;
  }

  lemma CycleFacts()
    ensures var g, t := Cycle(), Fresh(Cycle()).tables;
            && Closed(g) && t.Keys == g.globals.Keys && A in t && B in t && C in t && D in t
            && g.imports[A] == [Import(B, true), Import(D, true)] && g.imports[B] == [Import(C, true), Import(A, true)]
            && g.imports[C] == [] && g.imports[D] == []
            && !Defines(g, A, "x") && !Defines(g, B, "x")
            && Syms(t, A, "x") == {} && Syms(t, A, "y") == {} && Syms(t, B, "x") == {} && Syms(t, C, "x") == {1}
  {
  }

  // While a is being loaded, the table of b is filled without what a is still
  // waiting for.
  lemma LoadingA()
    ensures Closed(Cycle())
    ensures Syms(Get(Cycle(), {}, {}, Fresh(Cycle()).tables, A), B, "x") == {1}
  {
    hide Merge, Cycle, Fresh, Syms, Get, Closed, Defines, Add;
    CycleFacts();
    var g, t := Cycle(), Fresh(Cycle()).tables;
    assert {} + {A} == {A};
    var t1 := Add(g, {}, {A} + {B}, t, B, 1);
    GetTwo(g, {A}, t, t1, B, C, A);
    GetLeaf(g, {A} + {B}, t, C);
    OnStack(g, {A} + {B}, t1, A);
    MergeSyms(g, t, B, C);
    MergeSyms(g, t1, B, A);
    var t2 := Get(g, {}, {A}, t, B);
    var t3 := Add(g, {}, {} + {A}, t, A, 1);
    GetTwo(g, {}, t, t3, A, B, D);
    MergeSyms(g, t2, A, B);
    GetLeaf(g, {A}, t3, D);
    MergeSyms(g, t3, A, D);
    assert Syms(t1, A, "x") == {};
  }

  lemma OnStack(g: Graph, loading: set<Module>, t: Tables, m: Module)
    requires Closed(g) && t.Keys == g.globals.Keys && m in t && m in loading
    ensures Get(g, {}, loading, t, m) == t
  {
  }

  // In a cycle the order of lookups shows: asked first, b reports an ambiguity;
  // asked after a, it answers with one of the two candidates.
  lemma OrderMatters()
    ensures Closed(Cycle()) && A in Cycle().globals && B in Cycle().globals
    ensures {1, 2} <= Syms(After(Cycle(), [Query(B, "x")]).tables, B, "x")
    ensures Syms(After(Cycle(), [Query(A, "y"), Query(B, "x")]).tables, B, "x") == {1}
  {
    hide Merge, Get, Good, Syms, Fresh, Path;
    var g := Cycle();
    var s := Fresh(g);
    CycleFacts();
    CycleReaches();
    FreshGood(g);
    LoadingA();
    FreshLoaded(g);
    var q1, q2 := [Query(B, "x")], [Query(A, "y"), Query(B, "x")];
    assert q1[..0] == [] && q2[..1] == [Query(A, "y")] && q2[..1][..0] == [];
    assert After(g, []) == s;
    AnswerExact(g, s, B, "x");
    assert After(g, q1) == Consult(g, s, B, "x");
    assert After(g, q2[..1]) == Consult(g, s, A, "y");
    assert After(g, q2) == Consult(g, After(g, q2[..1]), B, "x");
  }

  lemma FreshLoaded(g: Graph)
    ensures Fresh(g).loaded == {}
  {
  }

  lemma CycleReaches()
    ensures Reaches(Cycle(), B, "x", 1) && Reaches(Cycle(), B, "x", 2)
  {
    var g := Cycle();
    assert Path(g, [B, C], "x", 1, {}) && [B, C][0] == B;
    assert Path(g, [B, A, D], "x", 2, {}) && [B, A, D][0] == B;
  }

  // ----- the module graph, in place -----------------------------------------

  class ModuleGraph {
    const graph: Graph
    var publicSymbols: Tables
    var publicSymbolsLoaded: set<Module>
    var publicSymbolsLoading: set<Module>

    ghost predicate Valid()
      reads this
    {
      Closed(graph) && publicSymbols.Keys == graph.globals.Keys
    }

    function Loaded(): State
      reads this
    {
      State(publicSymbols, publicSymbolsLoaded)
    }

    constructor (g: Graph)
      requires Closed(g)
      ensures graph == g && Valid() && Loaded() == Fresh(g) && publicSymbolsLoading == {}
    {
      graph := g;
      publicSymbols := Fresh(g).tables;
      publicSymbolsLoaded, publicSymbolsLoading := {}, {};
    }

    method GetPublicSymbols(m: Module)
      requires Valid() && m in graph.globals
      modifies this`publicSymbols, this`publicSymbolsLoading
      ensures Valid() && publicSymbolsLoading == old(publicSymbolsLoading)
      ensures publicSymbols == Get(graph, publicSymbolsLoaded, old(publicSymbolsLoading), old(publicSymbols), m)
      decreases |graph.globals.Keys - publicSymbolsLoading|, 0
    {
      if m in publicSymbolsLoaded || m in publicSymbolsLoading { return; }
      SmallerRest(graph.globals.Keys, publicSymbolsLoading, m);
      ghost var before := publicSymbolsLoading;
      publicSymbolsLoading := publicSymbolsLoading + {m};
      AddImportedSymbols(m);
      publicSymbolsLoading := publicSymbolsLoading - {m};
      assert before + {m} - {m} == before;
    }

    method AddImportedSymbols(m: Module)
      requires Valid() && m in graph.globals && m in publicSymbolsLoading
      modifies this`publicSymbols, this`publicSymbolsLoading
      ensures Valid() && publicSymbolsLoading == old(publicSymbolsLoading)
      ensures publicSymbols == Add(graph, publicSymbolsLoaded, old(publicSymbolsLoading), old(publicSymbols), m, |graph.imports[m]|)
      decreases |graph.globals.Keys - publicSymbolsLoading|, 1
    {
      hide Merge, Get;
      var imports := graph.imports[m];
      for i := 0 to |imports|
        invariant Valid() && publicSymbolsLoading == old(publicSymbolsLoading)
        invariant publicSymbols == Add(graph, publicSymbolsLoaded, publicSymbolsLoading, old(publicSymbols), m, i)
      {
        var x := imports[i];
        if x.isPublic {
          GetPublicSymbols(x.from);
          ImportStar(m, x.from);
        }
      }
    }

    // Copies every symbol of one module into another, in whatever order the
    // string map yields the names.
    method ImportStar(m: Module, from: Module)
      requires Valid() && m in graph.globals && from in graph.globals
      modifies this`publicSymbols
      ensures Valid() && publicSymbols == Merge(graph, old(publicSymbols), m, from)
    {
      hide Merge, Copied;
      ghost var before := publicSymbols;
      var symbols := publicSymbols[from];
      var names := symbols.Keys;
      CopiedNone(graph, before, m, symbols);
      while names != {}
        invariant Valid() && names <= symbols.Keys && symbols == before[from]
        invariant Copied(graph, before, publicSymbols, m, symbols, names)
        decreases |names|
      {
        var n :| n in names;
        ghost var was := publicSymbols;
        InsertImported(m, n, symbols[n]);
        OneMore(graph, before, was, publicSymbols, m, symbols, names, n);
        names := names - {n};
      }
      MergeIs(graph, before, publicSymbols, m, from);
    }

    // insertImported, for the values under one name of a star import.
    method InsertImported(m: Module, n: Name, values: set<Value>)
      requires Valid() && m in graph.globals
      modifies this`publicSymbols
      ensures Valid()
      ensures publicSymbols == old(publicSymbols)[m :=
                if n in graph.globals[m] then old(publicSymbols)[m]
                else old(publicSymbols)[m][n := Syms(old(publicSymbols), m, n) + values]]
    {
      if n !in graph.globals[m] {
        publicSymbols := publicSymbols[m := publicSymbols[m][n := Syms(publicSymbols, m, n) + values]];
      }
    }

    method LookupPublic(m: Module, n: Name) returns (a: Answer)
      requires Valid() && m in graph.globals && publicSymbolsLoading == {}
      modifies this
      ensures Valid() && publicSymbolsLoading == {} && Loaded() == Consult(graph, old(Loaded()), m, n)
      ensures Amounts(a, Syms(publicSymbols, m, n))
      ensures old(Good(graph, publicSymbolsLoaded, publicSymbols)) ==>
                && Good(graph, publicSymbolsLoaded, publicSymbols)
                && (a == NotFound ==> forall v :: !Reaches(graph, m, n, v))
                && (a.Found? ==> Reaches(graph, m, n, a.value))
    {
      hide Good, Reaches, Get;
      ghost var s := Loaded();
      if Syms(publicSymbols, m, n) == {} && m !in publicSymbolsLoaded {
        GetPublicSymbols(m);
        publicSymbolsLoaded := publicSymbolsLoaded + {m};
      }
      var vs := Syms(publicSymbols, m, n);
      if vs == {} {
        a := NotFound;
      } else {
        var v :| v in vs;
        if vs == {v} { a := Found(v); } else { a := Ambiguous(vs); }
        if vs != {v} { TwoAtLeast(vs, v); }
      }
      if Good(graph, s.loaded, s.tables) {
        ConsultGood(graph, s, m, n);
        AnswerSound(graph, s, m, n, a);
      }
    }
  }

  // t' is t with all symbols but those in names copied into m.
  ghost predicate Copied(g: Graph, t: Tables, t': Tables, m: Module, symbols: map<Name, set<Value>>, names: set<Name>)
    requires m in t && m in g.globals
  {
    && m in t' && t' == t[m := t'[m]]
    && t'[m].Keys == t[m].Keys + (symbols.Keys - names - g.globals[m].Keys)
    && forall n :: Syms(t', m, n) == Syms(t, m, n) + if n in symbols && n !in names && n !in g.globals[m] then symbols[n] else {}
  }

  lemma CopiedNone(g: Graph, t: Tables, m: Module, symbols: map<Name, set<Value>>)
    requires m in t && m in g.globals
    ensures Copied(g, t, t, m, symbols, symbols.Keys)
  {
    assert t == t[m := t[m]];
  }

  lemma OneMore(g: Graph, t: Tables, t1: Tables, t2: Tables, m: Module, symbols: map<Name, set<Value>>, names: set<Name>, n: Name)
    requires m in t && m in g.globals && Copied(g, t, t1, m, symbols, names) && n in names && n in symbols
    requires t2 == t1[m := if n in g.globals[m] then t1[m] else t1[m][n := Syms(t1, m, n) + symbols[n]]]
    ensures Copied(g, t, t2, m, symbols, names - {n})
  {
    assert t2[m].Keys == t[m].Keys + (symbols.Keys - (names - {n}) - g.globals[m].Keys);
  }

  lemma MergeIs(g: Graph, t: Tables, t': Tables, m: Module, from: Module)
    requires m in t && from in t && m in g.globals && Copied(g, t, t', m, t[from], {})
    ensures t' == Merge(g, t, m, from)
  {
    var merged := Merge(g, t, m, from);
    forall n | n in merged[m] ensures t'[m][n] == merged[m][n] {
      assert Syms(t', m, n) == t'[m][n];
    }
    assert t'[m] == merged[m];
  }

  lemma TwoAtLeast(vs: set<Value>, v: Value)
    requires v in vs && vs != {v}
    ensures |vs| > 1
  {
    assert vs == (vs - {v}) + {v};
  }
}
