// When return-type inference succeeds: away from recursion exactly when there is a
// typing, which it then finds; and what its complaints about recursion mean.
module InferenceComplete {
  import opened Wrappers
  import opened Inference

  // ----- who calls whom -----------------------------------------------------

  predicate ExprCalls(e: Expr, d: EntryId) {
    match e
    case CallE(callee, args) => d == callee || exists i :: 0 <= i < |args| && ExprCalls(args[i], d)
    case _ => false
  }

  // A live part of s calls d.
  predicate Calls(s: Stmt, d: EntryId)
    decreases s, 1
  {
    match s
    case Block(body) => CallsAny(body, d)
    case Bind(_, e) => ExprCalls(e, d)
    case Return(values) => exists i :: 0 <= i < |values| && ExprCalls(values[i], d)
    case If(pre, cond, kind, thn, els) =>
      || CallsAny(pre, d) || ExprCalls(cond, d) || (!kind.StaticFalse? && Calls(thn, d))
      || (!kind.StaticTrue? && exists i :: 0 <= i < |els| && Calls(els[i], d))
    case While(pre, loop) => CallsAny(pre, d) || Calls(loop, d)
    case Try(tried, handler) => Calls(tried, d) || Calls(handler, d)
    case _ => false
  }

  predicate CallsAny(ss: seq<Stmt>, d: EntryId)
    decreases ss, 0
  {
    exists i :: 0 <= i < |ss| && LiveAt(ss, i) && Calls(ss[i], d)
  }

  predicate Edge(p: Program, a: EntryId, b: EntryId) {
    a in p && p[a].Inferred? && Calls(p[a].body, b)
  }

  predicate Path(p: Program, q: seq<EntryId>) {
    |q| > 0 && forall i :: 0 <= i < |q| - 1 ==> Edge(p, q[i], q[i + 1])
  }

  ghost predicate Reaches(p: Program, a: EntryId, b: EntryId) {
    exists q :: Path(p, q) && q[0] == a && q[|q| - 1] == b
  }

  lemma ReachesSelf(p: Program, a: EntryId)
    ensures Reaches(p, a, a)
  {
    assert Path(p, [a]);
  }

  lemma ReachesOn(p: Program, a: EntryId, b: EntryId, c: EntryId)
    requires Edge(p, a, b) && Reaches(p, b, c)
    ensures Reaches(p, a, c)
  {
    var q :| Path(p, q) && q[0] == b && q[|q| - 1] == c;
    assert Path(p, [a] + q);
  }

  lemma ReachesThen(p: Program, a: EntryId, b: EntryId, c: EntryId)
    requires Reaches(p, a, b) && Reaches(p, b, c)
    ensures Reaches(p, a, c)
  {
    var q :| Path(p, q) && q[0] == a && q[|q| - 1] == b;
    var r :| Path(p, r) && r[0] == b && r[|r| - 1] == c;
    var z := q[..|q| - 1] + r;
    forall i | 0 <= i < |z| - 1 ensures Edge(p, z[i], z[i + 1]) {
      if i < |q| - 1 {
        assert z[i] == q[i] && z[i + 1] == q[i + 1];
      } else {
        assert z[i] == r[i - (|q| - 1)] && z[i + 1] == r[i + 1 - (|q| - 1)];
      }
    }
    assert Path(p, z) && z[0] == a && z[|z| - 1] == c;
  }

  // e leads back to itself.
  ghost predicate Cyclic(p: Program, e: EntryId) {
    exists d :: Edge(p, e, d) && Reaches(p, d, e)
  }

  // The type of d depends on an entry that is being analysed, or on recursion.
  ghost predicate Tangled(p: Program, analyzing: set<EntryId>, d: EntryId) {
    exists x :: Reaches(p, d, x) && (x in analyzing || Cyclic(p, x))
  }

  ghost predicate ClearExpr(p: Program, analyzing: set<EntryId>, e: Expr) {
    forall d :: ExprCalls(e, d) ==> !Tangled(p, analyzing, d)
  }

  // No live call of s depends on an entry that is being analysed.
  ghost predicate Clear(p: Program, analyzing: set<EntryId>, s: Stmt) {
    forall d :: Calls(s, d) ==> !Tangled(p, analyzing, d)
  }

  ghost predicate ClearAll(p: Program, analyzing: set<EntryId>, ss: seq<Stmt>) {
    forall d :: CallsAny(ss, d) ==> !Tangled(p, analyzing, d)
  }

  lemma Inside(p: Program, analyzing: set<EntryId>, e: EntryId)
    requires e in p && !Tangled(p, analyzing, e)
    ensures e !in analyzing && (p[e].Inferred? ==> Clear(p, analyzing + {e}, p[e].body))
  {
    ReachesSelf(p, e);
    if p[e].Inferred? {
      forall d | Calls(p[e].body, d) ensures !Tangled(p, analyzing + {e}, d) {
        if Tangled(p, analyzing + {e}, d) { TangledBelow(p, analyzing, e, d); }
      }
    }
  }

  lemma TangledBelow(p: Program, analyzing: set<EntryId>, e: EntryId, d: EntryId)
    requires Edge(p, e, d) && Tangled(p, analyzing + {e}, d)
    ensures Tangled(p, analyzing, e)
  {
    var x :| Reaches(p, d, x) && (x in analyzing + {e} || Cyclic(p, x));
    ReachesOn(p, e, d, x);
    if x == e {
      ReachesSelf(p, e);
      assert Cyclic(p, e);
    }
  }

  // ----- the parts of a statement -------------------------------------------

  lemma ClearParts(p: Program, analyzing: set<EntryId>, s: Stmt)
    requires Clear(p, analyzing, s)
    ensures match s
            case Block(body) => ClearAll(p, analyzing, body)
            case Bind(_, e) => ClearExpr(p, analyzing, e)
            case Return(values) => forall i :: 0 <= i < |values| ==> ClearExpr(p, analyzing, values[i])
            case If(pre, cond, kind, thn, els) =>
              && ClearAll(p, analyzing, pre) && ClearExpr(p, analyzing, cond) && (!kind.StaticFalse? ==> Clear(p, analyzing, thn))
              && (!kind.StaticTrue? ==> forall i :: 0 <= i < |els| ==> Clear(p, analyzing, els[i]))
            case While(pre, loop) => ClearAll(p, analyzing, pre) && Clear(p, analyzing, loop)
            case Try(tried, handler) => Clear(p, analyzing, tried) && Clear(p, analyzing, handler)
            case _ => true
  {
    hide Tangled;
  }

  lemma ClearArgs(p: Program, analyzing: set<EntryId>, e: Expr)
    requires e.CallE? && ClearExpr(p, analyzing, e)
    ensures !Tangled(p, analyzing, e.callee) && forall i :: 0 <= i < |e.args| ==> ClearExpr(p, analyzing, e.args[i])
  {
    hide Tangled;
  }

  lemma ClearItem(p: Program, analyzing: set<EntryId>, ss: seq<Stmt>, i: nat)
    requires i < |ss| && ClearAll(p, analyzing, ss) && LiveAt(ss, i)
    ensures Clear(p, analyzing, ss[i])
  {
    hide Tangled;
  }

  // ----- away from recursion ------------------------------------------------

  predicate NoRecursion<T>(r: Checked<T>) {
    r.Fail? ==> r.error == TypeMismatch || r.error == Undefined
  }

  lemma {:induction false} ExprFree(p: Program, analyzing: set<EntryId>, table: Table, env: Env, e: Expr)
    requires Bound(p) && BoundExpr(p, e) && ClearExpr(p, analyzing, e)
    ensures var r := AnExpr(p, analyzing, table, env, e); NoRecursion(r) && (r.Ok? ==> r.value.t.Some?)
    decreases Rest(p, analyzing), 1, e
  {
    hide ClearExpr, Tangled, Bound, Rest;
    match e
    case CallE(callee, args) =>
      ClearArgs(p, analyzing, e);
      ArgsFree(p, analyzing, table, env, args, |args|);
      var a := AnArgs(p, analyzing, table, env, args, |args|);
      if a.Ok? { CallableFree(p, analyzing, a.value.table, callee); }
    case _ =>
  }

  lemma {:induction false} ArgsFree(p: Program, analyzing: set<EntryId>, table: Table, env: Env, args: seq<Expr>, n: nat)
    requires Bound(p) && n <= |args| && (forall i :: 0 <= i < |args| ==> BoundExpr(p, args[i]) && ClearExpr(p, analyzing, args[i]))
    ensures var r := AnArgs(p, analyzing, table, env, args, n); NoRecursion(r) && (r.Ok? ==> r.value.t.Some?)
    decreases Rest(p, analyzing), 1, args, n
  {
    hide ClearExpr, Bound, Rest, AnExpr;
    if n > 0 {
      ArgsFree(p, analyzing, table, env, args, n - 1);
      var a := AnArgs(p, analyzing, table, env, args, n - 1);
      if a.Ok? { ExprFree(p, analyzing, a.value.table, env, args[n - 1]); }
    }
  }

  lemma {:induction false} CallableFree(p: Program, analyzing: set<EntryId>, table: Table, e: EntryId)
    requires Bound(p) && e in p && !Tangled(p, analyzing, e)
    ensures var r := AnCallable(p, analyzing, table, e); NoRecursion(r) && (r.Ok? ==> e in r.value)
    decreases Rest(p, analyzing), 0
  {
    hide Clear, Tangled, AnCodeBody, Rest;
    Inside(p, analyzing, e);
    if e !in table {
      RestShrinks(p, analyzing, e);
      BodyFree(p, analyzing + {e}, table, e);
    }
  }

  lemma {:induction false} BodyFree(p: Program, analyzing: set<EntryId>, table: Table, e: EntryId)
    requires Bound(p) && e in p && (p[e].Inferred? ==> Clear(p, analyzing, p[e].body))
    ensures var r := AnCodeBody(p, analyzing, table, e); NoRecursion(r) && (r.Ok? ==> e in r.value)
    decreases Rest(p, analyzing), 3
  {
    hide Clear, AnStmt, Rest;
    match p[e]
    case Declared(_) =>
    case Inferred(params, body) => StmtFree(p, analyzing, table, Ctx(false, None), params, body);
  }

  // The verdict is the structural one, and there is a return type if and only if
  // there is a live return.
  predicate FreeOutcome(r: Checked<Analysed>, ctx: Ctx, falls: bool, silent: bool) {
    && NoRecursion(r)
    && (r.Ok? ==>
          var a := r.value;
          && a.ctx.recursive == ctx.recursive && a.sa != RECURSIVE && (a.sa == FALLTHROUGH <==> falls)
          && (ctx.ret.Some? ==> a.ctx.ret == ctx.ret) && (ctx.ret == None ==> (a.ctx.ret == None <==> silent)))
  }

  lemma {:induction false} StmtFree(p: Program, analyzing: set<EntryId>, table: Table, ctx: Ctx, env: Env, s: Stmt)
    requires Bound(p) && BoundStmt(p, s) && Clear(p, analyzing, s)
    ensures FreeOutcome(AnStmt(p, analyzing, table, ctx, env, s), ctx, Falls(s), Silent(s))
    decreases Rest(p, analyzing), 2, s, 2
  {
    hide Clear, ClearAll, ClearExpr, Bound, Rest, AnExpr, AnBlock, AnIf, AnWhile, AnTry, FallsFrom, SilentFrom;
    ClearParts(p, analyzing, s);
    match s
    case Block(body) =>
      FromStart(body);
      BlockFree(p, analyzing, table, ctx, env, body, 0);
    case Bind(x, e) => ExprFree(p, analyzing, table, env, e);
    case Return(values) => if values != [] { ExprFree(p, analyzing, table, env, values[0]); }
    case If(_, _, _, _, _) => IfFree(p, analyzing, table, ctx, env, s);
    case While(_, _) => WhileFree(p, analyzing, table, ctx, env, s);
    case Try(_, _) => TryFree(p, analyzing, table, ctx, env, s);
    case _ =>
  }

  // What stands in front of a condition falls through and returns nothing.
  lemma SimpleFalls(p: Program, pre: seq<Stmt>)
    requires forall i :: 0 <= i < |pre| ==> (pre[i].Bind? || pre[i].Other?) && BoundStmt(p, pre[i])
    ensures LiveAt(pre, 0) && FallsFrom(pre, 0) && SilentFrom(pre, 0)
  {
  }

  lemma {:induction false} WhileFree(p: Program, analyzing: set<EntryId>, table: Table, ctx: Ctx, env: Env, s: Stmt)
    requires s.While? && Bound(p) && BoundStmt(p, s) && Clear(p, analyzing, s)
    ensures FreeOutcome(AnWhile(p, analyzing, table, ctx, env, s), ctx, Falls(s), Silent(s))
    decreases Rest(p, analyzing), 2, s, 1
  {
    hide Clear, ClearAll, Bound, Rest, AnBlock, AnStmt;
    ClearParts(p, analyzing, s);
    BlockFree(p, analyzing, table, ctx, env, s.pre, 0);
    var a := AnBlock(p, analyzing, table, ctx, env, s.pre, 0);
    SimpleFalls(p, s.pre);
    if a.Ok? { StmtFree(p, analyzing, a.value.table, a.value.ctx, a.value.env, s.loop); }
  }

  lemma {:induction false} TryFree(p: Program, analyzing: set<EntryId>, table: Table, ctx: Ctx, env: Env, s: Stmt)
    requires s.Try? && Bound(p) && BoundStmt(p, s) && Clear(p, analyzing, s)
    ensures FreeOutcome(AnTry(p, analyzing, table, ctx, env, s), ctx, Falls(s), Silent(s))
    decreases Rest(p, analyzing), 2, s, 1
  {
    hide Clear, Bound, Rest, AnStmt;
    ClearParts(p, analyzing, s);
    StmtFree(p, analyzing, table, ctx, env, s.tried);
    var a := AnStmt(p, analyzing, table, ctx, env, s.tried);
    if a.Ok? { StmtFree(p, analyzing, a.value.table, a.value.ctx, env, s.handler); }
  }

  lemma {:induction false} IfFree(p: Program, analyzing: set<EntryId>, table: Table, ctx: Ctx, env: Env, s: Stmt)
    requires s.If? && Bound(p) && BoundStmt(p, s) && Clear(p, analyzing, s)
    ensures FreeOutcome(AnIf(p, analyzing, table, ctx, env, s), ctx, Falls(s), Silent(s))
    decreases Rest(p, analyzing), 2, s, 1
  {
    hide Clear, ClearAll, ClearExpr, Bound, Rest, AnExpr, AnBlock, AnIf, Branches, FallsFrom, SilentFrom, Falls, Silent, LiveAt;
    ClearParts(p, analyzing, s);
    SimpleFalls(p, s.pre);
    IfUnfolds(p, analyzing, table, ctx, env, s);
    BlockFree(p, analyzing, table, ctx, env, s.pre, 0);
    var a := AnBlock(p, analyzing, table, ctx, env, s.pre, 0);
    if a.Ok? {
      ExprFree(p, analyzing, a.value.table, a.value.env, s.cond);
      var c := AnExpr(p, analyzing, a.value.table, a.value.env, s.cond);
      if c.Ok? { BranchesFree(p, analyzing, c.value.table, a.value.ctx, a.value.env, s); }
    }
  }

  // What is to be run of an if: at most one statement each.
  function Thn(s: Stmt): seq<Stmt>
    requires s.If?
  {
    if s.kind.StaticFalse? then [] else [s.thn]
  }

  function Els(s: Stmt): seq<Stmt>
    requires s.If?
  {
    if s.kind.StaticTrue? then [] else s.els
  }

  // The two branches of an if, one after the other.
  function Branches(p: Program, analyzing: set<EntryId>, table: Table, ctx: Ctx, env: Env, s: Stmt): Checked<Analysed>
    requires s.If? && Bound(p) && BoundStmt(p, s)
  {
    BranchesBound(p, s);
    var b1 :- AnBranch(p, analyzing, table, ctx, env, Thn(s), s);
    var b2 :- AnBranch(p, analyzing, b1.table, b1.ctx, env, Els(s), s);
    Ok(Analysed(b2.table, b2.ctx, env, Combine(b1.sa, b2.sa)))
  }

  lemma BranchesBound(p: Program, s: Stmt)
    requires s.If? && BoundStmt(p, s)
    ensures |Thn(s)| <= 1 && (Thn(s) != [] ==> Thn(s)[0] == s.thn && BoundStmt(p, Thn(s)[0]))
    ensures |Els(s)| <= 1 && (Els(s) != [] ==> Els(s)[0] in s.els && BoundStmt(p, Els(s)[0]))
  {
  }

  lemma IfMeans(s: Stmt)
    requires s.If? && |s.els| <= 1
    ensures Falls(s) <==> FallsFrom(Thn(s), 0) || FallsFrom(Els(s), 0)
    ensures Silent(s) <==> SilentFrom(Thn(s), 0) && SilentFrom(Els(s), 0)
  {
    assert LiveAt(Thn(s), 0) && LiveAt(Els(s), 0);
    assert Thn(s) != [] ==> Thn(s)[0] == s.thn;
    assert s.els != [] ==> (exists i :: 0 <= i < |s.els| && Falls(s.els[i])) == Falls(s.els[0]);
  }

  lemma IfUnfolds(p: Program, analyzing: set<EntryId>, table: Table, ctx: Ctx, env: Env, s: Stmt)
    requires s.If? && Bound(p) && BoundStmt(p, s)
    ensures var a := AnBlock(p, analyzing, table, ctx, env, s.pre, 0);
            var r := AnIf(p, analyzing, table, ctx, env, s);
            if a.Fail? then r == Fail(a.error)
            else if a.value.sa != FALLTHROUGH then r == Ok(a.value.(env := env))
            else
              var c := AnExpr(p, analyzing, a.value.table, a.value.env, s.cond);
              if c.Fail? then r == Fail(c.error)
              else if c.value.t == None then r == Fail(NullCondition)
              else if c.value.t == Some(Void) then r == Fail(TypeMismatch)
              else
                var b := Branches(p, analyzing, c.value.table, a.value.ctx, a.value.env, s);
                r == if b.Ok? then Ok(b.value.(env := env)) else Fail(b.error)
  {
    hide Bound, AnBlock, AnExpr, AnBranch;
    BranchesBound(p, s);
  }

  lemma {:induction false} BranchFree(p: Program, analyzing: set<EntryId>, table: Table, ctx: Ctx, env: Env, branch: seq<Stmt>, s: Stmt)
    requires Bound(p) && s.If? && |branch| <= 1 && (branch != [] ==> (branch[0] == s.thn || branch[0] in s.els) && BoundStmt(p, branch[0]))
    requires branch != [] ==> Clear(p, analyzing, branch[0])
    ensures FreeOutcome(AnBranch(p, analyzing, table, ctx, env, branch, s), ctx, FallsFrom(branch, 0), SilentFrom(branch, 0))
    decreases Rest(p, analyzing), 2, s, 0, 0
  {
    hide Clear, Bound, BoundStmt, Rest, AnStmt, Falls, Silent;
    if branch != [] {
      assert LiveAt(branch, 0);
      StmtFree(p, analyzing, table, ctx, env, branch[0]);
    }
  }

  lemma {:induction false} BranchesFree(p: Program, analyzing: set<EntryId>, table: Table, ctx: Ctx, env: Env, s: Stmt)
    requires s.If? && Bound(p) && BoundStmt(p, s) && Clear(p, analyzing, s)
    ensures FreeOutcome(Branches(p, analyzing, table, ctx, env, s), ctx, Falls(s), Silent(s))
    decreases Rest(p, analyzing), 2, s, 0, 1
  {
    BranchesBound(p, s);
    ClearParts(p, analyzing, s);
    IfMeans(s);
    hide Clear, ClearAll, ClearExpr, Bound, BoundStmt, Rest, AnBranch, Falls, Silent, FallsFrom, SilentFrom;
    BranchFree(p, analyzing, table, ctx, env, Thn(s), s);
    var b1 := AnBranch(p, analyzing, table, ctx, env, Thn(s), s);
    hide FreeOutcome;
    if b1.Ok? {
      BranchFree(p, analyzing, b1.value.table, b1.value.ctx, env, Els(s), s);
      var b2 := AnBranch(p, analyzing, b1.value.table, b1.value.ctx, env, Els(s), s);
      BothFree(b1, b2, ctx, env, FallsFrom(Thn(s), 0), SilentFrom(Thn(s), 0), FallsFrom(Els(s), 0), SilentFrom(Els(s), 0));
    } else {
      FailedFree(b1, ctx, FallsFrom(Thn(s), 0), SilentFrom(Thn(s), 0), Falls(s), Silent(s));
    }
  }

  // One part after the other, both analysed.
  function Both(b1: Analysed, b2: Checked<Analysed>, env: Env): Checked<Analysed> {
    if b2.Fail? then b2 else Ok(Analysed(b2.value.table, b2.value.ctx, env, Combine(b1.sa, b2.value.sa)))
  }

  lemma BothFree(b1: Checked<Analysed>, b2: Checked<Analysed>, ctx: Ctx, env: Env, f1: bool, s1: bool, f2: bool, s2: bool)
    requires b1.Ok? && FreeOutcome(b1, ctx, f1, s1) && FreeOutcome(b2, b1.value.ctx, f2, s2)
    ensures FreeOutcome(Both(b1.value, b2, env), ctx, f1 || f2, s1 && s2)
  {
  }

  lemma FailedFree(r: Checked<Analysed>, ctx: Ctx, f1: bool, s1: bool, f2: bool, s2: bool)
    requires r.Fail? && FreeOutcome(r, ctx, f1, s1)
    ensures FreeOutcome(r, ctx, f2, s2)
  {
  }

  predicate FallsFrom(ss: seq<Stmt>, i: nat) {
    forall j :: i <= j < |ss| ==> Falls(ss[j])
  }

  predicate SilentFrom(ss: seq<Stmt>, i: nat)
    requires i <= |ss|
  {
    forall j :: i <= j < |ss| && LiveAt(ss, j) ==> Silent(ss[j])
  }

  lemma FromNext(ss: seq<Stmt>, i: nat)
    requires i < |ss| && LiveAt(ss, i)
    ensures FallsFrom(ss, i) <==> Falls(ss[i]) && FallsFrom(ss, i + 1)
    ensures SilentFrom(ss, i) <==> Silent(ss[i]) && (Falls(ss[i]) ==> SilentFrom(ss, i + 1))
    ensures Falls(ss[i]) ==> LiveAt(ss, i + 1)
  {
    hide Falls, Silent;
    if !Falls(ss[i]) {
      assert forall j :: i < j < |ss| ==> !LiveAt(ss, j);
    }
  }

  lemma FromStart(ss: seq<Stmt>)
    ensures LiveAt(ss, 0) && FallsFrom(ss, |ss|) && SilentFrom(ss, |ss|)
    ensures Falls(Block(ss)) == FallsFrom(ss, 0) && Silent(Block(ss)) == SilentFrom(ss, 0)
  {
  }

  lemma {:induction false} BlockFree(p: Program, analyzing: set<EntryId>, table: Table, ctx: Ctx, env: Env, ss: seq<Stmt>, i: nat)
    requires Bound(p) && i <= |ss| && (forall j :: 0 <= j < |ss| ==> BoundStmt(p, ss[j])) && ClearAll(p, analyzing, ss) && LiveAt(ss, i)
    ensures FreeOutcome(AnBlock(p, analyzing, table, ctx, env, ss, i), ctx, FallsFrom(ss, i), SilentFrom(ss, i))
    decreases Rest(p, analyzing), 2, ss, |ss| - i
  {
    hide Clear, ClearAll, Bound, BoundStmt, Rest, AnStmt, Falls, Silent, FallsFrom, SilentFrom, LiveAt;
    FromStart(ss);
    if i < |ss| {
      FromNext(ss, i);
      ClearItem(p, analyzing, ss, i);
      StmtFree(p, analyzing, table, ctx, env, ss[i]);
      var a := AnStmt(p, analyzing, table, ctx, env, ss[i]);
      if a.Ok? && a.value.sa == FALLTHROUGH {
        BlockFree(p, analyzing, a.value.table, a.value.ctx, a.value.env, ss, i + 1);
      }
    }
  }

  // ----- typings ------------------------------------------------------------

  // e has the type of all its live returns, void if it has none.
  predicate EntryTyped(p: Program, g: Typing, e: EntryId, t: Type)
    requires e in p
  {
    match p[e]
    case Declared(t') => t == t'
    case Inferred(params, body) => Returns(g, params, body, t) && (Silent(body) ==> t == Void)
  }

  // A typing of some entries, and so of all that their live parts call.
  predicate Types(p: Program, g: Typing) {
    g.Keys <= p.Keys && forall e :: e in g ==> EntryTyped(p, g, e, g[e])
  }

  // The entries in the table are typed, whatever is added to it.
  ghost predicate TypedTable(p: Program, table: Table) {
    table.Keys <= p.Keys && forall e, g :: e in table && Consistent(g, table) ==> EntryTyped(p, g, e, table[e])
  }

  // What an analysis may do to the table.
  ghost predicate Steps(p: Program, analyzing: set<EntryId>, table: Table, table': Table) {
    && Consistent(table', table) && (TypedTable(p, table) ==> TypedTable(p, table'))
    && forall l :: l in analyzing && l in table' ==> l in table
  }

  lemma StepsThen(p: Program, analyzing: set<EntryId>, a: Table, b: Table, c: Table)
    requires Steps(p, analyzing, a, b) && Steps(p, analyzing, b, c)
    ensures Steps(p, analyzing, a, c)
  {
    hide TypedTable;
  }

  lemma NoSteps(p: Program, analyzing: set<EntryId>, table: Table)
    ensures Steps(p, analyzing, table, table)
  {
    hide TypedTable;
  }

  lemma Before(p: Program, analyzing: set<EntryId>, g: Typing, table: Table, table': Table)
    requires Steps(p, analyzing, table, table') && Consistent(g, table')
    ensures Consistent(g, table)
  {
    hide TypedTable;
  }

  // ----- away from recursion, typed if and only if analysed ------------------

  // Analysed with a typing of all it calls; and when analysed, typed.
  ghost predicate ExprOutcome(p: Program, g: Typing, analyzing: set<EntryId>, table: Table, typed: bool, t: Option<Type>, r: Checked<Typed>) {
    && (r.Ok? ==> Steps(p, analyzing, table, r.value.table) && (Consistent(g, r.value.table) ==> typed && r.value.t == t))
    && (Types(p, g) && Consistent(g, table) && typed ==> r.Ok? && Consistent(g, r.value.table))
  }

  lemma {:induction false} ExprTyped(p: Program, g: Typing, analyzing: set<EntryId>, table: Table, env: Env, e: Expr)
    requires Bound(p) && BoundExpr(p, e) && ClearExpr(p, analyzing, e)
    ensures ExprOutcome(p, g, analyzing, table, TypeOf(g, env, e).Some?, TypeOf(g, env, e), AnExpr(p, analyzing, table, env, e))
    decreases Rest(p, analyzing), 1, e
  {
    hide ClearExpr, Tangled, Bound, Rest, Steps, Types, Consistent;
    NoSteps(p, analyzing, table);
    match e
    case CallE(callee, args) => CallTyped(p, g, analyzing, table, env, e);
    case _ =>
  }

  lemma {:induction false} CallTyped(p: Program, g: Typing, analyzing: set<EntryId>, table: Table, env: Env, e: Expr)
    requires e.CallE? && Bound(p) && BoundExpr(p, e) && ClearExpr(p, analyzing, e)
    ensures ExprOutcome(p, g, analyzing, table, TypeOf(g, env, e).Some?, TypeOf(g, env, e), AnExpr(p, analyzing, table, env, e))
    decreases Rest(p, analyzing), 1, e, 0
  {
    hide ClearExpr, Tangled, Bound, Rest, Steps, Types, AnArgs, AnCallable, ArgsTyped;
    ClearArgs(p, analyzing, e);
    ArgsTypedIff(p, g, analyzing, table, env, e.args, |e.args|);
    ArgsFree(p, analyzing, table, env, e.args, |e.args|);
    AllArgs(g, env, e.args);
    var a := AnArgs(p, analyzing, table, env, e.args, |e.args|);
    if a.Ok? {
      var table1 := a.value.table;
      CallableFree(p, analyzing, table1, e.callee);
      CallableTyped(p, g, analyzing, table1, e.callee);
      var r := AnCallable(p, analyzing, table1, e.callee);
      if r.Ok? {
        StepsThen(p, analyzing, table, table1, r.value);
        if Consistent(g, r.value) { Before(p, analyzing, g, table1, r.value); }
      }
    }
  }

  predicate ArgsUpTo(g: Typing, env: Env, args: seq<Expr>, n: nat)
    requires n <= |args|
  {
    forall i :: 0 <= i < n ==> IsValue(TypeOf(g, env, args[i]))
  }

  lemma AllArgs(g: Typing, env: Env, args: seq<Expr>)
    ensures ArgsTyped(g, env, args) == ArgsUpTo(g, env, args, |args|)
  {
  }

  lemma {:induction false} ArgsTypedIff(p: Program, g: Typing, analyzing: set<EntryId>, table: Table, env: Env, args: seq<Expr>, n: nat)
    requires Bound(p) && n <= |args| && (forall i :: 0 <= i < |args| ==> BoundExpr(p, args[i]) && ClearExpr(p, analyzing, args[i]))
    ensures var r := AnArgs(p, analyzing, table, env, args, n);
            && (r.Ok? ==> Steps(p, analyzing, table, r.value.table) && (Consistent(g, r.value.table) ==> ArgsUpTo(g, env, args, n)))
            && (Types(p, g) && Consistent(g, table) && ArgsUpTo(g, env, args, n) ==> r.Ok? && Consistent(g, r.value.table))
    decreases Rest(p, analyzing), 1, args, n
  {
    hide ClearExpr, Bound, BoundExpr, Rest, AnExpr, Steps, Types, Consistent, TypeOf;
    if n == 0 {
      NoSteps(p, analyzing, table);
    } else {
      ArgsTypedIff(p, g, analyzing, table, env, args, n - 1);
      ArgsFree(p, analyzing, table, env, args, n - 1);
      var a := AnArgs(p, analyzing, table, env, args, n - 1);
      if a.Ok? {
        ExprFree(p, analyzing, a.value.table, env, args[n - 1]);
        ExprTyped(p, g, analyzing, a.value.table, env, args[n - 1]);
        var b := AnExpr(p, analyzing, a.value.table, env, args[n - 1]);
        if b.Ok? {
          StepsThen(p, analyzing, table, a.value.table, b.value.table);
          if Consistent(g, b.value.table) { Before(p, analyzing, g, a.value.table, b.value.table); }
        }
      }
    }
  }

  lemma {:induction false} CallableTyped(p: Program, g: Typing, analyzing: set<EntryId>, table: Table, e: EntryId)
    requires Bound(p) && e in p && !Tangled(p, analyzing, e)
    ensures var r := AnCallable(p, analyzing, table, e);
            && (r.Ok? ==> Steps(p, analyzing, table, r.value))
            && (Types(p, g) && Consistent(g, table) && e in g ==> r.Ok? && Consistent(g, r.value))
    decreases Rest(p, analyzing), 0
  {
    hide Clear, Tangled, AnCodeBody, Rest, TypedTable, Consistent, Types, Bound;
    Inside(p, analyzing, e);
    NoSteps(p, analyzing, table);
    if e !in table {
      RestShrinks(p, analyzing, e);
      BodyTyped(p, g, analyzing + {e}, table, e);
    }
  }

  lemma {:induction false} BodyTyped(p: Program, g: Typing, analyzing: set<EntryId>, table: Table, e: EntryId)
    requires Bound(p) && e in p && e in analyzing && e !in table && (p[e].Inferred? ==> Clear(p, analyzing, p[e].body))
    ensures var r := AnCodeBody(p, analyzing, table, e);
            && (r.Ok? ==> Steps(p, analyzing - {e}, table, r.value))
            && (Types(p, g) && Consistent(g, table) && e in g ==> r.Ok? && Consistent(g, r.value))
    decreases Rest(p, analyzing), 3
  {
    hide Clear, AnStmt, Rest, Returns, Silent, Falls, Bound, BoundStmt;
    match p[e]
    case Declared(t) =>
      if TypedTable(p, table) { Added(p, table, e, t); }
    case Inferred(params, body) =>
      assert BoundStmt(p, body) by { BodyBound(p, e); }
      StmtFree(p, analyzing, table, Ctx(false, None), params, body);
      var a := AnStmt(p, analyzing, table, Ctx(false, None), params, body);
      if a.Ok? {
        var t := if a.value.ctx.ret.Some? then a.value.ctx.ret.value else Void;
        var table' := a.value.table[e := t];
        StmtTyped(p, g, analyzing, table, Ctx(false, None), params, body, t);
        assert e !in a.value.table;
        if TypedTable(p, table) {
          forall g' | Consistent(g', table') ensures EntryTyped(p, g', e, t) {
            assert Consistent(g', a.value.table);
            StmtTyped(p, g', analyzing, table, Ctx(false, None), params, body, t);
          }
          Added(p, a.value.table, e, t);
        }
      }
      if Types(p, g) && Consistent(g, table) && e in g {
        StmtTyped(p, g, analyzing, table, Ctx(false, None), params, body, g[e]);
      }
  }

  lemma BodyBound(p: Program, e: EntryId)
    requires Bound(p) && e in p && p[e].Inferred?
    ensures BoundStmt(p, p[e].body)
  {
  }

  lemma Added(p: Program, table: Table, e: EntryId, t: Type)
    requires TypedTable(p, table) && e in p && e !in table
    requires forall g :: Consistent(g, table[e := t]) ==> EntryTyped(p, g, e, t)
    ensures TypedTable(p, table[e := t])
  {
    hide EntryTyped;
    var table' := table[e := t];
    forall d, g | d in table' && Consistent(g, table') ensures EntryTyped(p, g, d, table'[d]) {
      assert Consistent(g, table);
    }
  }

  // The same for a statement: analysed with no return but of type t if and only if
  // every live return has type t.
  ghost predicate TypedOutcome(p: Program, g: Typing, analyzing: set<EntryId>, table: Table, ctx: Ctx, typed: bool, behind: Env, t: Type, r: Checked<Analysed>) {
    && (r.Ok? ==>
          var a := r.value;
          && Steps(p, analyzing, table, a.table)
          && (Consistent(g, a.table) && a.sa == FALLTHROUGH ==> a.env == behind)
          && (Consistent(g, a.table) && Expects(a.ctx, t) ==> typed))
    && (Types(p, g) && Consistent(g, table) && typed && Expects(ctx, t) ==>
          r.Ok? && Consistent(g, r.value.table) && Expects(r.value.ctx, t))
  }

  lemma {:induction false} StmtTyped(p: Program, g: Typing, analyzing: set<EntryId>, table: Table, ctx: Ctx, env: Env, s: Stmt, t: Type)
    requires Bound(p) && BoundStmt(p, s) && Clear(p, analyzing, s)
    ensures TypedOutcome(p, g, analyzing, table, ctx, Returns(g, env, s, t), Behind(g, env, s), t, AnStmt(p, analyzing, table, ctx, env, s))
    decreases Rest(p, analyzing), 2, s, 2
  {
    hide Clear, ClearAll, ClearExpr, Bound, Rest, AnExpr, AnBlock, AnIf, AnWhile, AnTry, Steps, Types, Consistent, TypeOf, ReturnsAll, EnvAt;
    ClearParts(p, analyzing, s);
    NoSteps(p, analyzing, table);
    match s
    case Block(body) => BlockStmtTyped(p, g, analyzing, table, ctx, env, s, t);
    case Bind(x, e) =>
      ExprFree(p, analyzing, table, env, e);
      ExprTyped(p, g, analyzing, table, env, e);
    case Return(values) =>
      if values != [] {
        ExprFree(p, analyzing, table, env, values[0]);
        ExprTyped(p, g, analyzing, table, env, values[0]);
      }
    case If(_, _, _, _, _) => IfTyped(p, g, analyzing, table, ctx, env, s, t);
    case While(_, _) => WhileTyped(p, g, analyzing, table, ctx, env, s, t);
    case Try(_, _) => TryTyped(p, g, analyzing, table, ctx, env, s, t);
    case _ =>
  }

  predicate ReturnsFrom(g: Typing, env: Env, ss: seq<Stmt>, i: nat, t: Type)
    requires i <= |ss|
  {
    forall j :: i <= j < |ss| && LiveAt(ss, j) ==> Returns(g, EnvAt(g, env, ss, j), ss[j], t)
  }

  lemma ReturnsNext(g: Typing, env: Env, ss: seq<Stmt>, i: nat, t: Type)
    requires i < |ss| && LiveAt(ss, i)
    ensures ReturnsFrom(g, env, ss, i, t) <==>
            Returns(g, EnvAt(g, env, ss, i), ss[i], t) && (Falls(ss[i]) ==> ReturnsFrom(g, env, ss, i + 1, t))
    ensures EnvAt(g, env, ss, i + 1) == Behind(g, EnvAt(g, env, ss, i), ss[i])
  {
    hide Falls, Returns, Behind;
    if !Falls(ss[i]) {
      assert forall j :: i < j < |ss| ==> !LiveAt(ss, j);
    }
  }

  lemma ReturnsStart(g: Typing, env: Env, ss: seq<Stmt>, t: Type)
    ensures ReturnsAll(g, env, ss, t) == ReturnsFrom(g, env, ss, 0, t) && ReturnsFrom(g, env, ss, |ss|, t) && EnvAt(g, env, ss, 0) == env
  {
  }

  lemma {:induction false} BlockTyped(p: Program, g: Typing, analyzing: set<EntryId>, table: Table, ctx: Ctx, env: Env, env': Env, ss: seq<Stmt>, i: nat, t: Type)
    requires Bound(p) && i <= |ss| && (forall j :: 0 <= j < |ss| ==> BoundStmt(p, ss[j])) && ClearAll(p, analyzing, ss) && LiveAt(ss, i)
    requires Consistent(g, table) ==> env' == EnvAt(g, env, ss, i)
    ensures TypedOutcome(p, g, analyzing, table, ctx, ReturnsFrom(g, env, ss, i, t), EnvAt(g, env, ss, |ss|), t, AnBlock(p, analyzing, table, ctx, env', ss, i))
    decreases Rest(p, analyzing), 2, ss, |ss| - i
  {
    hide *;
    ReturnsStart(g, env, ss, t);
    if i == |ss| {
      BlockDone(p, g, analyzing, table, ctx, env, env', ss, t);
    } else {
      FromNext(ss, i);
      ReturnsNext(g, env, ss, i, t);
      ClearItem(p, analyzing, ss, i);
      StmtFree(p, analyzing, table, ctx, env', ss[i]);
      StmtTyped(p, g, analyzing, table, ctx, env', ss[i], t);
      var r := AnStmt(p, analyzing, table, ctx, env', ss[i]);
      BlockIs(p, analyzing, table, ctx, env', ss, i);
      ItemTyped(p, g, analyzing, table, ctx, env', ss[i], t, r);
      var r1, e1 := Returns(g, env', ss[i], t), Behind(g, env', ss[i]);
      if r.Ok? && r.value.sa == FALLTHROUGH {
        var a := r.value;
        BlockTyped(p, g, analyzing, a.table, a.ctx, env, a.env, ss, i + 1, t);
        BlockFree(p, analyzing, a.table, a.ctx, a.env, ss, i + 1);
        var b := AnBlock(p, analyzing, a.table, a.ctx, a.env, ss, i + 1);
        var r2, e2 := ReturnsFrom(g, env, ss, i + 1, t), EnvAt(g, env, ss, |ss|);
        TwoTyped(p, g, analyzing, table, ctx, r1, e1, r2, e2, t, r, b, FallsFrom(ss, i + 1), SilentFrom(ss, i + 1));
        Fits(p, g, analyzing, table, ctx, r1 && r2, e2, t, b);
        Reworded(p, g, analyzing, table, ctx, r1 && r2, e2, ReturnsFrom(g, env, ss, i, t), e2, t, b, b);
      } else {
        NoFurther(p, g, analyzing, table, ctx, r1, e1, t, r, ReturnsFrom(g, env, ss, i, t), EnvAt(g, env, ss, |ss|));
      }
    }
  }

  lemma BlockDone(p: Program, g: Typing, analyzing: set<EntryId>, table: Table, ctx: Ctx, env: Env, env': Env, ss: seq<Stmt>, t: Type)
    requires Bound(p) && (forall j :: 0 <= j < |ss| ==> BoundStmt(p, ss[j]))
    requires Consistent(g, table) ==> env' == EnvAt(g, env, ss, |ss|)
    ensures TypedOutcome(p, g, analyzing, table, ctx, ReturnsFrom(g, env, ss, |ss|, t), EnvAt(g, env, ss, |ss|), t, AnBlock(p, analyzing, table, ctx, env', ss, |ss|))
  {
    hide Bound, BoundStmt, EnvAt, Returns, Consistent, TypedTable, Types, LiveAt, Steps;
    NoSteps(p, analyzing, table);
  }

  lemma BlockIs(p: Program, analyzing: set<EntryId>, table: Table, ctx: Ctx, env: Env, ss: seq<Stmt>, i: nat)
    requires Bound(p) && i < |ss| && (forall j :: 0 <= j < |ss| ==> BoundStmt(p, ss[j]))
    ensures var r := AnStmt(p, analyzing, table, ctx, env, ss[i]);
            AnBlock(p, analyzing, table, ctx, env, ss, i) ==
              if r.Ok? && r.value.sa == FALLTHROUGH then AnBlock(p, analyzing, r.value.table, r.value.ctx, r.value.env, ss, i + 1) else r
  {
    hide Bound, BoundStmt, AnStmt;
  }

  lemma ItemTyped(p: Program, g: Typing, analyzing: set<EntryId>, table: Table, ctx: Ctx, env: Env, s: Stmt, t: Type, r: Checked<Analysed>)
    requires TypedOutcome(p, g, analyzing, table, ctx, Returns(g, env, s, t), Behind(g, env, s), t, r) && FreeOutcome(r, ctx, Falls(s), Silent(s))
    ensures r.Ok? ==> (Falls(s) <==> r.value.sa == FALLTHROUGH)
    ensures r.Ok? && Consistent(g, r.value.table) ==> Consistent(g, table) && (r.value.sa == FALLTHROUGH ==> r.value.env == Behind(g, env, s))
  {
    hide Returns, Behind, Falls, Silent, TypedTable, Types;
  }

  // The typing fits the table before if it fits the table after.
  lemma Fits(p: Program, g: Typing, analyzing: set<EntryId>, table: Table, ctx: Ctx, r1: bool, e1: Env, t: Type, r: Checked<Analysed>)
    requires TypedOutcome(p, g, analyzing, table, ctx, r1, e1, t, r)
    ensures r.Ok? && Consistent(g, r.value.table) ==> Consistent(g, table) && (r.value.sa == FALLTHROUGH ==> r.value.env == e1)
  {
    hide TypedTable, Types;
  }

  // Nothing behind the first item is live.
  lemma NoFurther(p: Program, g: Typing, analyzing: set<EntryId>, table: Table, ctx: Ctx, r1: bool, e1: Env, t: Type, r: Checked<Analysed>, r2: bool, e2: Env)
    requires TypedOutcome(p, g, analyzing, table, ctx, r1, e1, t, r) && (r.Ok? ==> r.value.sa != FALLTHROUGH)
    requires Consistent(g, table) ==> (r.Ok? ==> r1 == r2) && (r2 ==> r1)
    ensures TypedOutcome(p, g, analyzing, table, ctx, r2, e2, t, r)
  {
    hide TypedTable, Types;
  }

  lemma {:induction false} BlockStmtTyped(p: Program, g: Typing, analyzing: set<EntryId>, table: Table, ctx: Ctx, env: Env, s: Stmt, t: Type)
    requires s.Block? && Bound(p) && BoundStmt(p, s) && Clear(p, analyzing, s)
    ensures TypedOutcome(p, g, analyzing, table, ctx, Returns(g, env, s, t), Behind(g, env, s), t, AnStmt(p, analyzing, table, ctx, env, s))
    decreases Rest(p, analyzing), 2, s, 1
  {
    hide Clear, ClearAll, Bound, Rest, AnBlock, Steps, Types, Consistent, ReturnsAll, ReturnsFrom, EnvAt;
    ClearParts(p, analyzing, s);
    ReturnsStart(g, env, s.body, t);
    FromStart(s.body);
    BlockTyped(p, g, analyzing, table, ctx, env, env, s.body, 0, t);
  }

  // One part after another.
  lemma TwoTyped(p: Program, g: Typing, analyzing: set<EntryId>, table: Table, ctx: Ctx, r1: bool, e1: Env, r2: bool, e2: Env, t: Type, a: Checked<Analysed>, b: Checked<Analysed>, f: bool, q: bool)
    requires a.Ok? && TypedOutcome(p, g, analyzing, table, ctx, r1, e1, t, a)
    requires TypedOutcome(p, g, analyzing, a.value.table, a.value.ctx, r2, e2, t, b) && FreeOutcome(b, a.value.ctx, f, q)
    ensures TypedOutcome(p, g, analyzing, table, ctx, r1 && r2, e2, t, b)
    ensures b.Ok? && Consistent(g, b.value.table) ==> Consistent(g, a.value.table)
  {
    hide Steps, Types, Consistent;
    if b.Ok? {
      StepsThen(p, analyzing, table, a.value.table, b.value.table);
      if Consistent(g, b.value.table) { Before(p, analyzing, g, a.value.table, b.value.table); }
    }
  }

  // Whether something is typed matters only where the typing fits the table.
  lemma Reworded(p: Program, g: Typing, analyzing: set<EntryId>, table: Table, ctx: Ctx, r1: bool, e1: Env, r2: bool, e2: Env, t: Type, a: Checked<Analysed>, b: Checked<Analysed>)
    requires TypedOutcome(p, g, analyzing, table, ctx, r1, e1, t, a)
    requires a == b || (a.Ok? && b.Ok? && b.value.table == a.value.table && b.value.ctx == a.value.ctx)
    requires b.Ok? && Consistent(g, b.value.table) ==> (r1 ==> r2) && (b.value.sa == FALLTHROUGH ==> b.value.env == e2)
    requires Types(p, g) && Consistent(g, table) && Expects(ctx, t) && r2 ==> r1
    ensures TypedOutcome(p, g, analyzing, table, ctx, r2, e2, t, b)
  {
    hide Steps, Types, Consistent;
  }

  lemma {:induction false} TryTyped(p: Program, g: Typing, analyzing: set<EntryId>, table: Table, ctx: Ctx, env: Env, s: Stmt, t: Type)
    requires s.Try? && Bound(p) && BoundStmt(p, s) && Clear(p, analyzing, s)
    ensures TypedOutcome(p, g, analyzing, table, ctx, Returns(g, env, s, t), Behind(g, env, s), t, AnTry(p, analyzing, table, ctx, env, s))
    decreases Rest(p, analyzing), 2, s, 1
  {
    hide Clear, Bound, Rest, AnStmt, Steps, Types, Consistent, Falls, Silent, FreeOutcome;
    ClearParts(p, analyzing, s);
    StmtTyped(p, g, analyzing, table, ctx, env, s.tried, t);
    var a := AnStmt(p, analyzing, table, ctx, env, s.tried);
    if a.Ok? {
      StmtTyped(p, g, analyzing, a.value.table, a.value.ctx, env, s.handler, t);
      StmtFree(p, analyzing, a.value.table, a.value.ctx, env, s.handler);
      var b := AnStmt(p, analyzing, a.value.table, a.value.ctx, env, s.handler);
      TwoTyped(p, g, analyzing, table, ctx, Returns(g, env, s.tried, t), Behind(g, env, s.tried), Returns(g, env, s.handler, t), Behind(g, env, s.handler), t, a, b, Falls(s.handler), Silent(s.handler));
    }
  }

  lemma {:induction false} WhileTyped(p: Program, g: Typing, analyzing: set<EntryId>, table: Table, ctx: Ctx, env: Env, s: Stmt, t: Type)
    requires s.While? && Bound(p) && BoundStmt(p, s) && Clear(p, analyzing, s)
    ensures TypedOutcome(p, g, analyzing, table, ctx, Returns(g, env, s, t), Behind(g, env, s), t, AnWhile(p, analyzing, table, ctx, env, s))
    decreases Rest(p, analyzing), 2, s, 1
  {
    hide Clear, ClearAll, Bound, Rest, AnBlock, AnStmt, Steps, Types, Consistent, Falls, Silent, ReturnsAll, ReturnsFrom, EnvAt;
    ClearParts(p, analyzing, s);
    SimpleFalls(p, s.pre);
    ReturnsStart(g, env, s.pre, t);
    BlockFree(p, analyzing, table, ctx, env, s.pre, 0);
    BlockTyped(p, g, analyzing, table, ctx, env, env, s.pre, 0, t);
    var a := AnBlock(p, analyzing, table, ctx, env, s.pre, 0);
    if a.Ok? {
      var env' := a.value.env;
      StmtTyped(p, g, analyzing, a.value.table, a.value.ctx, env', s.loop, t);
      StmtFree(p, analyzing, a.value.table, a.value.ctx, env', s.loop);
      var b := AnStmt(p, analyzing, a.value.table, a.value.ctx, env', s.loop);
      TwoTyped(p, g, analyzing, table, ctx, ReturnsFrom(g, env, s.pre, 0, t), EnvAt(g, env, s.pre, |s.pre|), Returns(g, env', s.loop, t), Behind(g, env', s.loop), t, a, b, Falls(s.loop), Silent(s.loop));
    }
  }

  lemma {:induction false} BranchTyped(p: Program, g: Typing, analyzing: set<EntryId>, table: Table, ctx: Ctx, env: Env, branch: seq<Stmt>, s: Stmt, t: Type)
    requires Bound(p) && s.If? && |branch| <= 1 && (branch != [] ==> (branch[0] == s.thn || branch[0] in s.els) && BoundStmt(p, branch[0]))
    requires branch != [] ==> Clear(p, analyzing, branch[0])
    ensures var r := AnBranch(p, analyzing, table, ctx, env, branch, s);
            TypedOutcome(p, g, analyzing, table, ctx, branch != [] ==> Returns(g, env, branch[0], t), if r.Ok? then r.value.env else env, t, r)
    decreases Rest(p, analyzing), 2, s, 0, 0
  {
    hide Clear, Bound, BoundStmt, Rest, AnStmt, Returns, Steps, Types, Consistent;
    NoSteps(p, analyzing, table);
    if branch != [] { StmtTyped(p, g, analyzing, table, ctx, env, branch[0], t); }
  }

  lemma {:induction false} BranchesTyped(p: Program, g: Typing, analyzing: set<EntryId>, table: Table, ctx: Ctx, env: Env, s: Stmt, t: Type)
    requires s.If? && Bound(p) && BoundStmt(p, s) && Clear(p, analyzing, s)
    ensures TypedOutcome(p, g, analyzing, table, ctx, BranchesReturn(g, env, s, t), env, t, Branches(p, analyzing, table, ctx, env, s))
    decreases Rest(p, analyzing), 2, s, 0, 1
  {
    BranchesBound(p, s);
    ClearParts(p, analyzing, s);
    BranchesAre(p, analyzing, table, ctx, env, s);
    hide *;
    BranchTyped(p, g, analyzing, table, ctx, env, Thn(s), s, t);
    var b1 := AnBranch(p, analyzing, table, ctx, env, Thn(s), s);
    var r1, r2 := ThnReturns(g, env, s, t), ElsReturns(g, env, s, t);
    BranchesReturnIs(g, env, s, t);
    if b1.Ok? {
      var table1, ctx1 := b1.value.table, b1.value.ctx;
      BranchTyped(p, g, analyzing, table1, ctx1, env, Els(s), s, t);
      BranchFree(p, analyzing, table1, ctx1, env, Els(s), s);
      var b2 := AnBranch(p, analyzing, table1, ctx1, env, Els(s), s);
      var e2 := if b2.Ok? then b2.value.env else env;
      TwoTyped(p, g, analyzing, table, ctx, r1, b1.value.env, r2, e2, t, b1, b2, FallsFrom(Els(s), 0), SilentFrom(Els(s), 0));
      BothIs(b1.value, b2, env);
      Reworded(p, g, analyzing, table, ctx, r1 && r2, e2, r1 && r2, env, t, b2, Both(b1.value, b2, env));
    } else {
      FailedTyped(p, g, analyzing, table, ctx, r1, env, t, b1, b1, r1 && r2, env);
    }
  }

  predicate ThnReturns(g: Typing, env: Env, s: Stmt, t: Type)
    requires s.If?
  {
    Thn(s) != [] ==> Returns(g, env, Thn(s)[0], t)
  }

  predicate ElsReturns(g: Typing, env: Env, s: Stmt, t: Type)
    requires s.If?
  {
    Els(s) != [] ==> Returns(g, env, Els(s)[0], t)
  }

  lemma BranchesReturnIs(g: Typing, env: Env, s: Stmt, t: Type)
    requires s.If?
    ensures BranchesReturn(g, env, s, t) == (ThnReturns(g, env, s, t) && ElsReturns(g, env, s, t))
    ensures ThnReturns(g, env, s, t) == (Thn(s) != [] ==> Returns(g, env, Thn(s)[0], t))
    ensures ElsReturns(g, env, s, t) == (Els(s) != [] ==> Returns(g, env, Els(s)[0], t))
  {
    hide Returns;
  }

  lemma BranchesAre(p: Program, analyzing: set<EntryId>, table: Table, ctx: Ctx, env: Env, s: Stmt)
    requires s.If? && Bound(p) && BoundStmt(p, s)
    ensures |Thn(s)| <= 1 && (Thn(s) != [] ==> Thn(s)[0] == s.thn && BoundStmt(p, Thn(s)[0]))
    ensures |Els(s)| <= 1 && (Els(s) != [] ==> Els(s)[0] in s.els && BoundStmt(p, Els(s)[0]))
    ensures var b1 := AnBranch(p, analyzing, table, ctx, env, Thn(s), s);
            Branches(p, analyzing, table, ctx, env, s) ==
              if b1.Fail? then b1 else Both(b1.value, AnBranch(p, analyzing, b1.value.table, b1.value.ctx, env, Els(s), s), env)
  {
    BranchesBound(p, s);
    hide Bound, BoundStmt, AnBranch, Thn, Els;
  }

  lemma BothIs(a: Analysed, b: Checked<Analysed>, env: Env)
    ensures var r := Both(a, b, env);
            r == b || (b.Ok? && r.Ok? && r.value.table == b.value.table && r.value.ctx == b.value.ctx && r.value.env == env)
    ensures b.Ok? ==> Both(a, b, env).Ok? && Both(a, b, env).value.env == env
  {
  }

  lemma FailedTyped(p: Program, g: Typing, analyzing: set<EntryId>, table: Table, ctx: Ctx, r1: bool, e1: Env, t: Type, r: Checked<Analysed>, r': Checked<Analysed>, r2: bool, e2: Env)
    requires r.Fail? && r'.Fail? && TypedOutcome(p, g, analyzing, table, ctx, r1, e1, t, r) && (r2 ==> r1)
    ensures TypedOutcome(p, g, analyzing, table, ctx, r2, e2, t, r')
  {
    hide Types, Consistent, Steps;
  }

  predicate BranchesReturn(g: Typing, env: Env, s: Stmt, t: Type)
    requires s.If?
  {
    (Thn(s) != [] ==> Returns(g, env, Thn(s)[0], t)) && (Els(s) != [] ==> Returns(g, env, Els(s)[0], t))
  }

  lemma IfReturns(g: Typing, env: Env, s: Stmt, t: Type)
    requires s.If? && |s.els| <= 1
    ensures var env' := EnvAt(g, env, s.pre, |s.pre|);
            Returns(g, env, s, t) <==>
            ReturnsFrom(g, env, s.pre, 0, t) && IsValue(TypeOf(g, env', s.cond)) && BranchesReturn(g, env', s, t)
  {
    hide TypeOf, EnvAt, ReturnsFrom, ReturnsAll;
    ReturnsStart(g, env, s.pre, t);
    assert s.els != [] ==> s.els[0] == Els(s.(kind := Dynamic))[0];
  }

  // What stands in front of the condition falls through.
  lemma PreGives(p: Program, g: Typing, analyzing: set<EntryId>, table: Table, ctx: Ctx, r1: bool, e1: Env, t: Type, r: Checked<Analysed>, f: bool, q: bool)
    requires TypedOutcome(p, g, analyzing, table, ctx, r1, e1, t, r) && FreeOutcome(r, ctx, f, q) && f && r.Ok?
    ensures r.value.sa == FALLTHROUGH
    ensures Consistent(g, r.value.table) ==> r.value.env == e1 && Consistent(g, table)
    ensures Types(p, g) && Consistent(g, table) && r1 && Expects(ctx, t) ==> Consistent(g, r.value.table)
  {
    hide TypedTable, Types;
  }

  lemma CondThen(p: Program, g: Typing, analyzing: set<EntryId>, table: Table, ctx: Ctx, ct: Option<Type>, r1: bool, env: Env, t: Type, c: Checked<Typed>, b: Checked<Analysed>, f: bool, q: bool)
    requires c.Ok? && c.value.t.Some? && c.value.t != Some(Void) && ExprOutcome(p, g, analyzing, table, ct.Some?, ct, c)
    requires TypedOutcome(p, g, analyzing, c.value.table, ctx, r1, env, t, b) && FreeOutcome(b, ctx, f, q)
    ensures TypedOutcome(p, g, analyzing, table, ctx, IsValue(ct) && r1, env, t, b)
  {
    hide Steps, Types, Consistent;
    if b.Ok? {
      StepsThen(p, analyzing, table, c.value.table, b.value.table);
      if Consistent(g, b.value.table) { Before(p, analyzing, g, c.value.table, b.value.table); }
    }
  }

  // A condition that fails to be analysed, or is void.
  lemma CondStops(p: Program, g: Typing, analyzing: set<EntryId>, table: Table, ctx: Ctx, r1: bool, t: Type, a: Analysed, ct: Option<Type>, c: Checked<Typed>, r: Checked<Analysed>, typed: bool, env: Env)
    requires Types(p, g) && Consistent(g, table) && r1 && Expects(ctx, t) ==> Consistent(g, a.table)
    requires ExprOutcome(p, g, analyzing, a.table, ct.Some?, ct, c) && (c.Ok? ==> c.value.t == Some(Void)) && r.Fail?
    requires typed && Consistent(g, a.table) ==> IsValue(ct)
    requires typed ==> r1
    ensures TypedOutcome(p, g, analyzing, table, ctx, typed, env, t, r)
  {
    hide Steps, Types, Consistent;
  }

  lemma IfBound(p: Program, g: Typing, analyzing: set<EntryId>, env: Env, s: Stmt)
    requires s.If? && BoundStmt(p, s) && Clear(p, analyzing, s)
    ensures (forall i :: 0 <= i < |s.pre| ==> (s.pre[i].Bind? || s.pre[i].Other?) && BoundStmt(p, s.pre[i]))
    ensures BoundExpr(p, s.cond) && |s.els| <= 1 && Behind(g, env, s) == env
    ensures ClearAll(p, analyzing, s.pre) && ClearExpr(p, analyzing, s.cond)
  {
    ClearParts(p, analyzing, s);
  }

  lemma {:induction false} IfTyped(p: Program, g: Typing, analyzing: set<EntryId>, table: Table, ctx: Ctx, env: Env, s: Stmt, t: Type)
    requires s.If? && Bound(p) && BoundStmt(p, s) && Clear(p, analyzing, s)
    ensures TypedOutcome(p, g, analyzing, table, ctx, Returns(g, env, s, t), Behind(g, env, s), t, AnIf(p, analyzing, table, ctx, env, s))
    decreases Rest(p, analyzing), 2, s, 1
  {
    hide *;
    IfBound(p, g, analyzing, env, s);
    SimpleFalls(p, s.pre);
    IfUnfolds(p, analyzing, table, ctx, env, s);
    IfReturns(g, env, s, t);
    ReturnsStart(g, env, s.pre, t);
    BlockFree(p, analyzing, table, ctx, env, s.pre, 0);
    BlockTyped(p, g, analyzing, table, ctx, env, env, s.pre, 0, t);
    var r := AnBlock(p, analyzing, table, ctx, env, s.pre, 0);
    var r1, e1, r' := ReturnsFrom(g, env, s.pre, 0, t), EnvAt(g, env, s.pre, |s.pre|), AnIf(p, analyzing, table, ctx, env, s);
    if r.Ok? {
      var a := r.value;
      PreGives(p, g, analyzing, table, ctx, r1, e1, t, r, FallsFrom(s.pre, 0), SilentFrom(s.pre, 0));
      ExprFree(p, analyzing, a.table, a.env, s.cond);
      ExprTyped(p, g, analyzing, a.table, a.env, s.cond);
      var c := AnExpr(p, analyzing, a.table, a.env, s.cond);
      var typed := IsValue(TypeOf(g, a.env, s.cond));
      if c.Ok? && c.value.t != Some(Void) {
        BranchesFree(p, analyzing, c.value.table, a.ctx, a.env, s);
        BranchesTyped(p, g, analyzing, c.value.table, a.ctx, a.env, s, t);
        var b := Branches(p, analyzing, c.value.table, a.ctx, a.env, s);
        CondThen(p, g, analyzing, a.table, a.ctx, TypeOf(g, a.env, s.cond), BranchesReturn(g, a.env, s, t), a.env, t, c, b, Falls(s), Silent(s));
        TwoTyped(p, g, analyzing, table, ctx, r1, e1, typed && BranchesReturn(g, a.env, s, t), a.env, t, r, b, Falls(s), Silent(s));
        Fits(p, g, analyzing, table, ctx, r1 && typed && BranchesReturn(g, a.env, s, t), a.env, t, b);
        Reworded(p, g, analyzing, table, ctx, r1 && typed && BranchesReturn(g, a.env, s, t), a.env, Returns(g, env, s, t), env, t, b, r');
      } else {
        CondStops(p, g, analyzing, table, ctx, r1, t, a, TypeOf(g, a.env, s.cond), c, r', Returns(g, env, s, t), env);
      }
    } else {
      FailedTyped(p, g, analyzing, table, ctx, r1, e1, t, r, r', Returns(g, env, s, t), env);
    }
  }

  // ----- the complaint about conditions -------------------------------------

  // The condition of a live if in s calls d.
  predicate Asks(s: Stmt, d: EntryId)
    decreases s, 1
  {
    match s
    case Block(body) => AsksAny(body, d)
    case If(_, cond, kind, thn, els) =>
      || ExprCalls(cond, d) || (!kind.StaticFalse? && Asks(thn, d))
      || (!kind.StaticTrue? && exists i :: 0 <= i < |els| && Asks(els[i], d))
    case While(_, loop) => Asks(loop, d)
    case Try(tried, handler) => Asks(tried, d) || Asks(handler, d)
    case _ => false
  }

  predicate AsksAny(ss: seq<Stmt>, d: EntryId)
    decreases ss, 0
  {
    exists i :: 0 <= i < |ss| && LiveAt(ss, i) && Asks(ss[i], d)
  }

  // d leads to an entry with a live condition whose type depends on an entry that
  // is being analysed, or on recursion.
  ghost predicate Unsure(p: Program, analyzing: set<EntryId>, d: EntryId) {
    exists x, c :: Reaches(p, d, x) && Wavers(p, analyzing, x, c)
  }

  ghost predicate Wavers(p: Program, analyzing: set<EntryId>, x: EntryId, c: EntryId) {
    x in p && p[x].Inferred? && Asks(p[x].body, c) && Tangled(p, analyzing, c)
  }

  ghost predicate SureExpr(p: Program, analyzing: set<EntryId>, e: Expr) {
    forall d :: ExprCalls(e, d) ==> !Unsure(p, analyzing, d)
  }

  // Neither in s nor in what its live parts call is there such a condition.
  ghost predicate Sure(p: Program, analyzing: set<EntryId>, s: Stmt) {
    && (forall d :: Calls(s, d) ==> !Unsure(p, analyzing, d))
    && forall d :: Asks(s, d) ==> !Tangled(p, analyzing, d)
  }

  ghost predicate SureAll(p: Program, analyzing: set<EntryId>, ss: seq<Stmt>) {
    && (forall d :: CallsAny(ss, d) ==> !Unsure(p, analyzing, d))
    && forall d :: AsksAny(ss, d) ==> !Tangled(p, analyzing, d)
  }

  lemma {:induction false} AsksCalls(s: Stmt, d: EntryId)
    requires Asks(s, d)
    ensures Calls(s, d)
    decreases s
  {
    match s
    case Block(body) =>
      var i :| 0 <= i < |body| && LiveAt(body, i) && Asks(body[i], d);
      AsksCalls(body[i], d);
    case If(_, cond, kind, thn, els) =>
      if !kind.StaticFalse? && Asks(thn, d) { AsksCalls(thn, d); }
      forall i | 0 <= i < |els| && Asks(els[i], d) ensures Calls(els[i], d) { AsksCalls(els[i], d); }
    case While(_, loop) => AsksCalls(loop, d);
    case Try(tried, handler) =>
      if Asks(tried, d) { AsksCalls(tried, d); } else { AsksCalls(handler, d); }
    case _ =>
  }

  // What depends on e from within e is recursion.
  lemma SureInside(p: Program, analyzing: set<EntryId>, e: EntryId)
    requires e in p && p[e].Inferred? && !Unsure(p, analyzing, e)
    ensures Sure(p, analyzing + {e}, p[e].body)
  {
    hide Asks, Calls, Unsure, Tangled;
    forall c | Asks(p[e].body, c) ensures !Tangled(p, analyzing + {e}, c) {
      if Tangled(p, analyzing + {e}, c) { AskedInside(p, analyzing, e, c); }
    }
    forall d | Calls(p[e].body, d) ensures !Unsure(p, analyzing + {e}, d) {
      if Unsure(p, analyzing + {e}, d) { CalledInside(p, analyzing, e, d); }
    }
  }

  lemma AskedInside(p: Program, analyzing: set<EntryId>, e: EntryId, c: EntryId)
    requires e in p && p[e].Inferred? && Asks(p[e].body, c) && Tangled(p, analyzing + {e}, c)
    ensures Unsure(p, analyzing, e)
  {
    ReachesSelf(p, e);
    AsksCalls(p[e].body, c);
    StillTangled(p, analyzing, e, e, c);
    assert Wavers(p, analyzing, e, c);
  }

  lemma CalledInside(p: Program, analyzing: set<EntryId>, e: EntryId, d: EntryId)
    requires Edge(p, e, d) && Unsure(p, analyzing + {e}, d)
    ensures Unsure(p, analyzing, e)
  {
    var x, c :| Reaches(p, d, x) && Wavers(p, analyzing + {e}, x, c);
    ReachesOn(p, e, d, x);
    AsksCalls(p[x].body, c);
    StillTangled(p, analyzing, e, x, c);
    assert Wavers(p, analyzing, x, c);
  }

  lemma StillTangled(p: Program, analyzing: set<EntryId>, e: EntryId, x: EntryId, c: EntryId)
    requires Reaches(p, e, x) && Edge(p, x, c) && Tangled(p, analyzing + {e}, c)
    ensures Tangled(p, analyzing, c)
  {
    var y :| Reaches(p, c, y) && (y in analyzing + {e} || Cyclic(p, y));
    if y == e {
      ReachesOn(p, x, c, e);
      ReachesThen(p, c, e, x);
      assert Cyclic(p, x);
    }
  }

  lemma SureParts(p: Program, analyzing: set<EntryId>, s: Stmt)
    requires Sure(p, analyzing, s)
    ensures match s
            case Block(body) => SureAll(p, analyzing, body)
            case Bind(_, e) => SureExpr(p, analyzing, e)
            case Return(values) => forall i :: 0 <= i < |values| ==> SureExpr(p, analyzing, values[i])
            case If(pre, cond, kind, thn, els) =>
              && (forall d :: CallsAny(pre, d) ==> !Unsure(p, analyzing, d))
              && SureExpr(p, analyzing, cond) && ClearExpr(p, analyzing, cond) && (!kind.StaticFalse? ==> Sure(p, analyzing, thn))
              && (!kind.StaticTrue? ==> forall i :: 0 <= i < |els| ==> Sure(p, analyzing, els[i]))
            case While(pre, loop) => (forall d :: CallsAny(pre, d) ==> !Unsure(p, analyzing, d)) && Sure(p, analyzing, loop)
            case Try(tried, handler) => Sure(p, analyzing, tried) && Sure(p, analyzing, handler)
            case _ => true
  {
    hide Tangled, Unsure;
    match s
    case If(pre, cond, kind, thn, els) =>
      assert forall d :: ExprCalls(cond, d) ==> Asks(s, d) && Calls(s, d);
    case _ =>
  }

  lemma SurePre(p: Program, analyzing: set<EntryId>, pre: seq<Stmt>)
    requires forall i :: 0 <= i < |pre| ==> pre[i].Bind? || pre[i].Other?
    requires forall d :: CallsAny(pre, d) ==> !Unsure(p, analyzing, d)
    ensures SureAll(p, analyzing, pre)
  {
    hide Tangled, Unsure;
    forall d ensures !AsksAny(pre, d) {
      assert forall i :: 0 <= i < |pre| ==> !Asks(pre[i], d);
    }
  }

  lemma SureItem(p: Program, analyzing: set<EntryId>, ss: seq<Stmt>, i: nat)
    requires i < |ss| && SureAll(p, analyzing, ss) && LiveAt(ss, i)
    ensures Sure(p, analyzing, ss[i])
  {
    hide Tangled, Unsure;
  }

  lemma SureArgs(p: Program, analyzing: set<EntryId>, e: Expr)
    requires e.CallE? && SureExpr(p, analyzing, e)
    ensures !Unsure(p, analyzing, e.callee) && forall i :: 0 <= i < |e.args| ==> SureExpr(p, analyzing, e.args[i])
  {
    hide Unsure;
  }

  predicate NotNull<T>(r: Checked<T>) {
    r.Fail? ==> r.error != NullCondition
  }

  // Nor is anything reached that is not live.
  predicate SureOutcome(r: Checked<Analysed>, falls: bool) {
    NotNull(r) && (r.Ok? && r.value.sa == FALLTHROUGH ==> falls)
  }

  lemma {:induction false} ExprSure(p: Program, analyzing: set<EntryId>, table: Table, env: Env, e: Expr)
    requires Bound(p) && BoundExpr(p, e) && SureExpr(p, analyzing, e)
    ensures NotNull(AnExpr(p, analyzing, table, env, e))
    decreases Rest(p, analyzing), 1, e
  {
    hide SureExpr, Unsure, Bound, Rest;
    match e
    case CallE(callee, args) =>
      SureArgs(p, analyzing, e);
      ArgsSure(p, analyzing, table, env, args, |args|);
      var a := AnArgs(p, analyzing, table, env, args, |args|);
      if a.Ok? { CallableSure(p, analyzing, a.value.table, callee); }
    case _ =>
  }

  lemma {:induction false} ArgsSure(p: Program, analyzing: set<EntryId>, table: Table, env: Env, args: seq<Expr>, n: nat)
    requires Bound(p) && n <= |args| && (forall i :: 0 <= i < |args| ==> BoundExpr(p, args[i]) && SureExpr(p, analyzing, args[i]))
    ensures NotNull(AnArgs(p, analyzing, table, env, args, n))
    decreases Rest(p, analyzing), 1, args, n
  {
    hide SureExpr, Bound, Rest, AnExpr;
    if n > 0 {
      ArgsSure(p, analyzing, table, env, args, n - 1);
      var a := AnArgs(p, analyzing, table, env, args, n - 1);
      if a.Ok? { ExprSure(p, analyzing, a.value.table, env, args[n - 1]); }
    }
  }

  lemma {:induction false} CallableSure(p: Program, analyzing: set<EntryId>, table: Table, e: EntryId)
    requires Bound(p) && e in p && !Unsure(p, analyzing, e)
    ensures NotNull(AnCallable(p, analyzing, table, e))
    decreases Rest(p, analyzing), 0
  {
    hide Sure, Unsure, AnStmt, Rest;
    if e !in table && e !in analyzing {
      RestShrinks(p, analyzing, e);
      if p[e].Inferred? {
        SureInside(p, analyzing, e);
        StmtSure(p, analyzing + {e}, table, Ctx(false, None), p[e].params, p[e].body);
      }
    }
  }

  lemma {:induction false} StmtSure(p: Program, analyzing: set<EntryId>, table: Table, ctx: Ctx, env: Env, s: Stmt)
    requires Bound(p) && BoundStmt(p, s) && Sure(p, analyzing, s)
    ensures SureOutcome(AnStmt(p, analyzing, table, ctx, env, s), Falls(s))
    decreases Rest(p, analyzing), 2, s, 2
  {
    hide Sure, SureAll, SureExpr, ClearExpr, Unsure, Tangled, Bound, Rest, AnExpr, AnBlock, AnIf, AnWhile, AnTry, FallsFrom, SilentFrom;
    SureParts(p, analyzing, s);
    match s
    case Block(body) =>
      FromStart(body);
      BlockSure(p, analyzing, table, ctx, env, body, 0);
    case Bind(x, e) => ExprSure(p, analyzing, table, env, e);
    case Return(values) => if values != [] { ExprSure(p, analyzing, table, env, values[0]); }
    case If(_, _, _, _, _) => IfSure(p, analyzing, table, ctx, env, s);
    case While(_, _) => WhileSure(p, analyzing, table, ctx, env, s);
    case Try(_, _) => TrySure(p, analyzing, table, ctx, env, s);
    case _ =>
  }

  lemma {:induction false} BlockSure(p: Program, analyzing: set<EntryId>, table: Table, ctx: Ctx, env: Env, ss: seq<Stmt>, i: nat)
    requires Bound(p) && i <= |ss| && (forall j :: 0 <= j < |ss| ==> BoundStmt(p, ss[j])) && SureAll(p, analyzing, ss) && LiveAt(ss, i)
    ensures SureOutcome(AnBlock(p, analyzing, table, ctx, env, ss, i), FallsFrom(ss, i))
    decreases Rest(p, analyzing), 2, ss, |ss| - i
  {
    hide Sure, SureAll, Bound, BoundStmt, Rest, AnStmt, Falls, Silent, FallsFrom, SilentFrom, LiveAt;
    FromStart(ss);
    if i < |ss| {
      FromNext(ss, i);
      SureItem(p, analyzing, ss, i);
      StmtSure(p, analyzing, table, ctx, env, ss[i]);
      var a := AnStmt(p, analyzing, table, ctx, env, ss[i]);
      if a.Ok? && a.value.sa == FALLTHROUGH {
        BlockSure(p, analyzing, a.value.table, a.value.ctx, a.value.env, ss, i + 1);
      }
    }
  }

  lemma {:induction false} WhileSure(p: Program, analyzing: set<EntryId>, table: Table, ctx: Ctx, env: Env, s: Stmt)
    requires s.While? && Bound(p) && BoundStmt(p, s) && Sure(p, analyzing, s)
    ensures SureOutcome(AnWhile(p, analyzing, table, ctx, env, s), Falls(s))
    decreases Rest(p, analyzing), 2, s, 1
  {
    hide Sure, SureAll, Unsure, Bound, Rest, AnBlock, AnStmt, FallsFrom, SilentFrom, LiveAt;
    SureParts(p, analyzing, s);
    SurePre(p, analyzing, s.pre);
    FromStart(s.pre);
    BlockSure(p, analyzing, table, ctx, env, s.pre, 0);
    var a := AnBlock(p, analyzing, table, ctx, env, s.pre, 0);
    if a.Ok? && a.value.sa == FALLTHROUGH { StmtSure(p, analyzing, a.value.table, a.value.ctx, a.value.env, s.loop); }
  }

  lemma {:induction false} TrySure(p: Program, analyzing: set<EntryId>, table: Table, ctx: Ctx, env: Env, s: Stmt)
    requires s.Try? && Bound(p) && BoundStmt(p, s) && Sure(p, analyzing, s)
    ensures SureOutcome(AnTry(p, analyzing, table, ctx, env, s), Falls(s))
    decreases Rest(p, analyzing), 2, s, 1
  {
    hide Sure, Bound, Rest, AnStmt;
    SureParts(p, analyzing, s);
    StmtSure(p, analyzing, table, ctx, env, s.tried);
    var a := AnStmt(p, analyzing, table, ctx, env, s.tried);
    if a.Ok? { StmtSure(p, analyzing, a.value.table, a.value.ctx, env, s.handler); }
  }

  lemma {:induction false} BranchSure(p: Program, analyzing: set<EntryId>, table: Table, ctx: Ctx, env: Env, branch: seq<Stmt>, s: Stmt)
    requires Bound(p) && s.If? && |branch| <= 1 && (branch != [] ==> (branch[0] == s.thn || branch[0] in s.els) && BoundStmt(p, branch[0]))
    requires branch != [] ==> Sure(p, analyzing, branch[0])
    ensures SureOutcome(AnBranch(p, analyzing, table, ctx, env, branch, s), FallsFrom(branch, 0))
    decreases Rest(p, analyzing), 2, s, 0, 0
  {
    hide Sure, Bound, BoundStmt, Rest, AnStmt, Falls;
    if branch != [] { StmtSure(p, analyzing, table, ctx, env, branch[0]); }
  }

  lemma {:induction false} BranchesSure(p: Program, analyzing: set<EntryId>, table: Table, ctx: Ctx, env: Env, s: Stmt)
    requires s.If? && Bound(p) && BoundStmt(p, s) && Sure(p, analyzing, s)
    ensures SureOutcome(Branches(p, analyzing, table, ctx, env, s), Falls(s))
    decreases Rest(p, analyzing), 2, s, 0, 1
  {
    BranchesAre(p, analyzing, table, ctx, env, s);
    SureParts(p, analyzing, s);
    IfMeans(s);
    hide Sure, Bound, BoundStmt, Rest, AnBranch, Branches, Falls, Silent, FallsFrom, SilentFrom;
    BranchSure(p, analyzing, table, ctx, env, Thn(s), s);
    var b1 := AnBranch(p, analyzing, table, ctx, env, Thn(s), s);
    if b1.Ok? { BranchSure(p, analyzing, b1.value.table, b1.value.ctx, env, Els(s), s); }
  }

  lemma {:induction false} IfSure(p: Program, analyzing: set<EntryId>, table: Table, ctx: Ctx, env: Env, s: Stmt)
    requires s.If? && Bound(p) && BoundStmt(p, s) && Sure(p, analyzing, s)
    ensures SureOutcome(AnIf(p, analyzing, table, ctx, env, s), Falls(s))
    decreases Rest(p, analyzing), 2, s, 1
  {
    hide Sure, SureAll, SureExpr, ClearExpr, Unsure, Bound, Rest, AnExpr, AnBlock, AnIf, Branches, FallsFrom, SilentFrom, Falls, Silent, LiveAt;
    SureParts(p, analyzing, s);
    SurePre(p, analyzing, s.pre);
    FromStart(s.pre);
    IfUnfolds(p, analyzing, table, ctx, env, s);
    BlockSure(p, analyzing, table, ctx, env, s.pre, 0);
    var a := AnBlock(p, analyzing, table, ctx, env, s.pre, 0);
    if a.Ok? && a.value.sa == FALLTHROUGH {
      ExprSure(p, analyzing, a.value.table, a.value.env, s.cond);
      ExprFree(p, analyzing, a.value.table, a.value.env, s.cond);
      var c := AnExpr(p, analyzing, a.value.table, a.value.env, s.cond);
      if c.Ok? { BranchesSure(p, analyzing, c.value.table, a.value.ctx, a.value.env, s); }
    }
  }

  // ----- the theorems -------------------------------------------------------

  // The analysis of an entry from which no recursion can be reached succeeds if and
  // only if there is a typing, of it and of what it calls. What it has found then is
  // one, and every other gives the entry the same type. It fails for a disagreement
  // or an undefined name only.
  lemma AnalysedIffTyped(p: Program, e: EntryId)
    requires Bound(p) && e in p && !Tangled(p, {}, e)
    ensures var r := AnCallable(p, {}, map[], e);
            && (r.Ok? <==> exists g :: Types(p, g) && e in g)
            && (r.Ok? ==> Types(p, r.value) && e in r.value && forall g :: Types(p, g) && e in g ==> g[e] == r.value[e])
            && NoRecursion(r)
  {
    hide Tangled, AnCallable, EntryTyped, Bound;
    CallableFree(p, {}, map[], e);
    var r := AnCallable(p, {}, map[], e);
    forall g ensures Types(p, g) && e in g ==> r.Ok? && Consistent(g, r.value) {
      CallableTyped(p, g, {}, map[], e);
    }
    CallableTyped(p, map[], {}, map[], e);
    if r.Ok? {
      assert TypedTable(p, map[]);
      assert TypedTable(p, r.value) && Consistent(r.value, r.value);
    }
  }

  predicate AllIn(es: seq<EntryId>, m: map<EntryId, Type>) {
    forall i :: 0 <= i < |es| ==> es[i] in m
  }

  lemma AllInLast(es: seq<EntryId>, m: map<EntryId, Type>)
    requires es != []
    ensures AllIn(es, m) <==> AllIn(es[..|es| - 1], m) && es[|es| - 1] in m
  {
    var before := es[..|es| - 1];
    assert forall i :: 0 <= i < |before| ==> before[i] == es[i];
    assert es == before + [es[|es| - 1]];
  }

  lemma AllInMore(es: seq<EntryId>, m: map<EntryId, Type>, m': map<EntryId, Type>)
    requires AllIn(es, m) && Consistent(m', m)
    ensures AllIn(es, m')
  {
  }

  lemma NoneOut()
    ensures forall m :: AllIn([], m)
  {
  }

  // The same for entries analysed one after another, in any order.
  lemma AllIffTyped(p: Program, es: seq<EntryId>)
    requires Bound(p) && forall i :: 0 <= i < |es| ==> es[i] in p && !Tangled(p, {}, es[i])
    ensures var r := AnAll(p, es);
            && (r.Ok? <==> exists g :: Types(p, g) && AllIn(es, g))
            && (r.Ok? ==> Types(p, r.value) && AllIn(es, r.value))
  {
    hide Tangled, AnAll, EntryTyped, Bound;
    var r := AnAll(p, es);
    forall g ensures Types(p, g) && AllIn(es, g) ==> r.Ok? && Consistent(g, r.value) {
      AllTyped(p, g, es);
    }
    AllTyped(p, map[], es);
    if r.Ok? { assert Consistent(r.value, r.value); }
  }

  lemma {:induction false} AllTyped(p: Program, g: Typing, es: seq<EntryId>)
    requires Bound(p) && forall i :: 0 <= i < |es| ==> es[i] in p && !Tangled(p, {}, es[i])
    ensures var r := AnAll(p, es);
            && (r.Ok? ==> TypedTable(p, r.value) && AllIn(es, r.value))
            && (Types(p, g) && AllIn(es, g) ==> r.Ok? && Consistent(g, r.value))
  {
    hide Tangled, AnCallable, TypedTable, Types, Bound, AllIn;
    if es == [] {
      NothingTyped(p);
      NoneOut();
    } else {
      var before, e := es[..|es| - 1], es[|es| - 1];
      forall m ensures AllIn(es, m) <==> AllIn(before, m) && e in m { AllInLast(es, m); }
      AllTyped(p, g, before);
      var a := AnAll(p, before);
      if a.Ok? {
        CallableFree(p, {}, a.value, e);
        CallableTyped(p, g, {}, a.value, e);
        var r := AnCallable(p, {}, a.value, e);
        if r.Ok? { AllInMore(before, a.value, r.value); }
      }
    }
  }

  lemma NothingTyped(p: Program)
    ensures TypedTable(p, map[])
  {
  }

  // The complaint that a condition has no type is made only if some live condition
  // of an entry that is led to calls an entry whose type depends on recursion.
  lemma NullMeans(p: Program, e: EntryId, table: Table)
    requires Bound(p) && e in p && AnCallable(p, {}, table, e) == Fail(NullCondition)
    ensures exists x, c :: Reaches(p, e, x) && x in p && p[x].Inferred? && Asks(p[x].body, c) && Tangled(p, {}, c)
  {
    hide AnCallable, Tangled, Asks, Reaches;
    if !Unsure(p, {}, e) { CallableSure(p, {}, table, e); }
    var x, c :| Reaches(p, e, x) && Wavers(p, {}, x, c);
  }

  // And that the return type of a recursive entry cannot be found, only if recursion
  // is led to.
  lemma PropagationMeans(p: Program, e: EntryId, table: Table)
    requires Bound(p) && e in p && AnCallable(p, {}, table, e) == Fail(PropagationFailed)
    ensures exists x :: Reaches(p, e, x) && Cyclic(p, x)
  {
    hide AnCallable;
    if !Tangled(p, {}, e) { CallableFree(p, {}, table, e); }
  }
}
