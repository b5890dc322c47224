// Return-type inference through recursion: analyzeCallable and analyzeStatement
// as a re-entrant computation, against types assigned to all entries at once.
module Inference {
  import opened Wrappers

  type EntryId = nat

  datatype Type = Void | Ty(id: nat)

  datatype Expr =
    | Const(t: Type)
    | Local(x: string)
    | CallE(callee: EntryId, args: seq<Expr>)

  // typeBoolKind of a condition
  datatype Kind = Dynamic | StaticTrue | StaticFalse

  datatype Stmt =
    | Block(body: seq<Stmt>)
    | Bind(x: string, e: Expr)
    | Return(values: seq<Expr>)              // no value, or one
    | If(pre: seq<Stmt>, cond: Expr, kind: Kind, thn: Stmt, els: seq<Stmt>)   // els: no statement, or one
    | While(pre: seq<Stmt>, loop: Stmt)
    | Try(tried: Stmt, handler: Stmt)
    | Leave                                  // goto, break, continue, throw, unreachable
    | Other                                  // statements the analysis steps over

  // An InvokeEntry: with declared return types, or with a body to infer them from.
  datatype Entry = Declared(t: Type) | Inferred(params: map<string, Type>, body: Stmt)

  type Program = map<EntryId, Entry>
  type Env = map<string, Type>

  // returnTypes of the entries marked analyzed.
  type Table = map<EntryId, Type>

  datatype Error =
    | TypeMismatch      // returns disagree, or an argument or bound value is void
    | Undefined
    | PropagationFailed
    | NullCondition     // an if condition whose type is not known yet is dereferenced

  type Checked<+T> = Result<T, Error>

  datatype StatementAnalysis = FALLTHROUGH | RECURSIVE | TERMINATED

  // AnalysisContext
  datatype Ctx = Ctx(recursive: bool, ret: Option<Type>)

  predicate Bound(p: Program) {
    forall e :: e in p && p[e].Inferred? ==> BoundStmt(p, p[e].body)
  }

  predicate BoundExpr(p: Program, e: Expr) {
    match e
    case CallE(callee, args) => callee in p && forall i :: 0 <= i < |args| ==> BoundExpr(p, args[i])
    case _ => true
  }

  // Calls are of known entries, and in front of a condition there are bindings
  // and simple statements.
  predicate BoundStmt(p: Program, s: Stmt) {
    match s
    case Block(body) => forall i :: 0 <= i < |body| ==> BoundStmt(p, body[i])
    case Bind(_, e) => BoundExpr(p, e)
    case Return(values) => |values| <= 1 && forall i :: 0 <= i < |values| ==> BoundExpr(p, values[i])
    case If(pre, cond, _, thn, els) =>
      && (forall i :: 0 <= i < |pre| ==> (pre[i].Bind? || pre[i].Other?) && BoundStmt(p, pre[i]))
      && BoundExpr(p, cond) && BoundStmt(p, thn) && |els| <= 1 && forall i :: 0 <= i < |els| ==> BoundStmt(p, els[i])
    case While(pre, loop) =>
      && (forall i :: 0 <= i < |pre| ==> (pre[i].Bind? || pre[i].Other?) && BoundStmt(p, pre[i])) && BoundStmt(p, loop)
    case Try(tried, handler) => BoundStmt(p, tried) && BoundStmt(p, handler)
    case _ => true
  }

  // combineStatementAnalysis
  function Combine(a: StatementAnalysis, b: StatementAnalysis): StatementAnalysis {
    if a == FALLTHROUGH || b == FALLTHROUGH then FALLTHROUGH
    else if a == RECURSIVE && b == RECURSIVE then RECURSIVE
    else TERMINATED
  }

  // ----- the analysis -------------------------------------------------------

  // The type of an expression, or None while it depends on an entry that is
  // being analysed.
  datatype Typed = Typed(table: Table, t: Option<Type>)

  datatype Analysed = Analysed(table: Table, ctx: Ctx, env: Env, sa: StatementAnalysis)

  function Rest(p: Program, analyzing: set<EntryId>): nat {
    |p.Keys - analyzing|
  }

  lemma RestShrinks(p: Program, analyzing: set<EntryId>, e: EntryId)
    requires e in p && e !in analyzing
    ensures Rest(p, analyzing + {e}) < Rest(p, analyzing)
  {
    assert p.Keys - analyzing == (p.Keys - (analyzing + {e})) + {e};
  }

  // analyzeExpr
  function AnExpr(p: Program, analyzing: set<EntryId>, table: Table, env: Env, e: Expr): Checked<Typed>
    requires Bound(p) && BoundExpr(p, e)
    decreases Rest(p, analyzing), 1, e
  {
    match e
    case Const(t) => Ok(Typed(table, Some(t)))
    case Local(x) => if x in env then Ok(Typed(table, Some(env[x]))) else Fail(Undefined)
    case CallE(callee, args) =>
      var a :- AnArgs(p, analyzing, table, env, args, |args|);
      if a.t == None then Ok(a)
      else
        var table' :- AnCallable(p, analyzing, a.table, callee);
        Ok(Typed(table', if callee in table' then Some(table'[callee]) else None))
  }

  // The first n arguments: their types do not matter, only whether all are known.
  function AnArgs(p: Program, analyzing: set<EntryId>, table: Table, env: Env, args: seq<Expr>, n: nat): Checked<Typed>
    requires Bound(p) && n <= |args| && forall i :: 0 <= i < |args| ==> BoundExpr(p, args[i])
    decreases Rest(p, analyzing), 1, args, n
  {
    if n == 0 then Ok(Typed(table, Some(Void)))
    else
      var a :- AnArgs(p, analyzing, table, env, args, n - 1);
      if a.t == None then Ok(a)
      else
        var b :- AnExpr(p, analyzing, a.table, env, args[n - 1]);
        if b.t == Some(Void) then Fail(TypeMismatch) else Ok(b)
  }

  // analyzeCallable
  function AnCallable(p: Program, analyzing: set<EntryId>, table: Table, e: EntryId): Checked<Table>
    requires Bound(p) && e in p
    decreases Rest(p, analyzing), 0
  {
    if e in table || e in analyzing then Ok(table)
    else
      RestShrinks(p, analyzing, e);
      AnCodeBody(p, analyzing + {e}, table, e)
  }

  // analyzeCodeBody
  function AnCodeBody(p: Program, analyzing: set<EntryId>, table: Table, e: EntryId): Checked<Table>
    requires Bound(p) && e in p
    decreases Rest(p, analyzing), 3
  {
    match p[e]
    case Declared(t) => Ok(table[e := t])
    case Inferred(params, body) =>
      var a :- AnStmt(p, analyzing, table, Ctx(false, None), params, body);
      if a.sa == RECURSIVE && a.ctx.ret == None then Ok(a.table)
      else if a.ctx.ret.Some? then Ok(a.table[e := a.ctx.ret.value])
      else if a.sa == TERMINATED && a.ctx.recursive then Fail(PropagationFailed)
      else Ok(a.table[e := Void])
  }

  // analyzeStatement, and analyzeBlockStatement for a binding
  function AnStmt(p: Program, analyzing: set<EntryId>, table: Table, ctx: Ctx, env: Env, s: Stmt): Checked<Analysed>
    requires Bound(p) && BoundStmt(p, s)
    decreases Rest(p, analyzing), 2, s, 2
  {
    match s
    case Block(body) =>
      var a :- AnBlock(p, analyzing, table, ctx, env, body, 0);
      Ok(a.(env := env))
    case Bind(x, e) =>
      var a :- AnExpr(p, analyzing, table, env, e);
      if a.t == None then Ok(Analysed(a.table, ctx.(recursive := true), env, RECURSIVE))
      else if a.t.value == Void then Fail(TypeMismatch)
      else Ok(Analysed(a.table, ctx, env[x := a.t.value], FALLTHROUGH))
    case Return(values) =>
      var a :- if values == [] then Ok(Typed(table, Some(Void))) else AnExpr(p, analyzing, table, env, values[0]);
      if a.t == None then Ok(Analysed(a.table, ctx.(recursive := true), env, RECURSIVE))
      else if values != [] && a.t.value == Void then Fail(TypeMismatch)
      else if ctx.ret.Some? && ctx.ret != a.t then Fail(TypeMismatch)
      else Ok(Analysed(a.table, ctx.(ret := a.t), env, TERMINATED))
    case If(_, _, _, _, _) => AnIf(p, analyzing, table, ctx, env, s)
    case While(_, _) => AnWhile(p, analyzing, table, ctx, env, s)
    case Try(_, _) => AnTry(p, analyzing, table, ctx, env, s)
    case Leave => Ok(Analysed(table, ctx, env, TERMINATED))
    case Other => Ok(Analysed(table, ctx, env, FALLTHROUGH))
  }

  function AnIf(p: Program, analyzing: set<EntryId>, table: Table, ctx: Ctx, env: Env, s: Stmt): Checked<Analysed>
    requires s.If? && Bound(p) && BoundStmt(p, s)
    decreases Rest(p, analyzing), 2, s, 1
  {
    var a :- AnBlock(p, analyzing, table, ctx, env, s.pre, 0);
    if a.sa != FALLTHROUGH then Ok(a.(env := env))
    else
      var c :- AnExpr(p, analyzing, a.table, a.env, s.cond);
      if c.t == None then Fail(NullCondition)
      else if c.t.value == Void then Fail(TypeMismatch)
      else
        var b1 :- AnBranch(p, analyzing, c.table, a.ctx, a.env, if s.kind.StaticFalse? then [] else [s.thn], s);
        var b2 :- AnBranch(p, analyzing, b1.table, b1.ctx, a.env, if s.kind.StaticTrue? then [] else s.els, s);
        Ok(Analysed(b2.table, b2.ctx, env, Combine(b1.sa, b2.sa)))
  }

  function AnWhile(p: Program, analyzing: set<EntryId>, table: Table, ctx: Ctx, env: Env, s: Stmt): Checked<Analysed>
    requires s.While? && Bound(p) && BoundStmt(p, s)
    decreases Rest(p, analyzing), 2, s, 1
  {
    var a :- AnBlock(p, analyzing, table, ctx, env, s.pre, 0);
    if a.sa != FALLTHROUGH then Ok(a.(env := env))
    else
      var b :- AnStmt(p, analyzing, a.table, a.ctx, a.env, s.loop);
      Ok(Analysed(b.table, b.ctx, env, FALLTHROUGH))
  }

  function AnTry(p: Program, analyzing: set<EntryId>, table: Table, ctx: Ctx, env: Env, s: Stmt): Checked<Analysed>
    requires s.Try? && Bound(p) && BoundStmt(p, s)
    decreases Rest(p, analyzing), 2, s, 1
  {
    var a :- AnStmt(p, analyzing, table, ctx, env, s.tried);
    var b :- AnStmt(p, analyzing, a.table, a.ctx, env, s.handler);
    Ok(Analysed(b.table, b.ctx, env, Combine(a.sa, b.sa)))
  }

  // A branch of an if: one that is absent or not taken falls through.
  function AnBranch(p: Program, analyzing: set<EntryId>, table: Table, ctx: Ctx, env: Env, branch: seq<Stmt>, s: Stmt): Checked<Analysed>
    requires Bound(p) && s.If? && |branch| <= 1 && (branch != [] ==> (branch[0] == s.thn || branch[0] in s.els) && BoundStmt(p, branch[0]))
    decreases Rest(p, analyzing), 2, s, 0
  {
    if branch == [] then Ok(Analysed(table, ctx, env, FALLTHROUGH)) else AnStmt(p, analyzing, table, ctx, env, branch[0])
  }

  // Items from position i, until one does not fall through.
  function AnBlock(p: Program, analyzing: set<EntryId>, table: Table, ctx: Ctx, env: Env, ss: seq<Stmt>, i: nat): Checked<Analysed>
    requires Bound(p) && i <= |ss| && forall j :: 0 <= j < |ss| ==> BoundStmt(p, ss[j])
    decreases Rest(p, analyzing), 2, ss, |ss| - i
  {
    if i == |ss| then Ok(Analysed(table, ctx, env, FALLTHROUGH))
    else
      var a :- AnStmt(p, analyzing, table, ctx, env, ss[i]);
      if a.sa != FALLTHROUGH then Ok(a) else AnBlock(p, analyzing, a.table, a.ctx, a.env, ss, i + 1)
  }

  // ----- types assigned to all entries at once ------------------------------

  type Typing = map<EntryId, Type>

  // The type of an expression when every entry has its assigned type.
  function TypeOf(g: Typing, env: Env, e: Expr): Option<Type> {
    match e
    case Const(t) => Some(t)
    case Local(x) => if x in env then Some(env[x]) else None
    case CallE(callee, args) => if callee in g && ArgsTyped(g, env, args) then Some(g[callee]) else None
  }

  predicate ArgsTyped(g: Typing, env: Env, args: seq<Expr>) {
    forall i :: 0 <= i < |args| ==> IsValue(TypeOf(g, env, args[i]))
  }

  predicate IsValue(t: Option<Type>) {
    t.Some? && t != Some(Void)
  }

  // Whether control can run off the end of a statement, as the analysis judges.
  predicate Falls(s: Stmt) {
    match s
    case Block(body) => forall i :: 0 <= i < |body| ==> Falls(body[i])
    case Return(_) => false
    case If(_, _, kind, thn, els) => !kind.Dynamic? || els == [] || Falls(thn) || exists i :: 0 <= i < |els| && Falls(els[i])
    case Try(tried, handler) => Falls(tried) || Falls(handler)
    case Leave => false
    case _ => true
  }

  // The environment behind a statement.
  function Behind(g: Typing, env: Env, s: Stmt): Env {
    if s.Bind? && TypeOf(g, env, s.e).Some? then env[s.x := TypeOf(g, env, s.e).value] else env
  }

  // The environment in front of item i of a block.
  function EnvAt(g: Typing, env: Env, ss: seq<Stmt>, i: nat): Env
    requires i <= |ss|
  {
    if i == 0 then env else Behind(g, EnvAt(g, env, ss, i - 1), ss[i - 1])
  }

  // Item i is not behind one that never falls through.
  predicate LiveAt(ss: seq<Stmt>, i: nat)
    requires i <= |ss|
  {
    forall j :: 0 <= j < i ==> Falls(ss[j])
  }

  // All live expressions of s have a type and all live returns have type t.
  predicate Returns(g: Typing, env: Env, s: Stmt, t: Type)
    decreases s, 1
  {
    match s
    case Block(body) => ReturnsAll(g, env, body, t)
    case Bind(_, e) => IsValue(TypeOf(g, env, e))
    case Return(values) => if values == [] then t == Void else TypeOf(g, env, values[0]) == Some(t) && t != Void
    case If(pre, cond, kind, thn, els) =>
      var env' := EnvAt(g, env, pre, |pre|);
      && ReturnsAll(g, env, pre, t) && IsValue(TypeOf(g, env', cond))
      && (!kind.StaticFalse? ==> Returns(g, env', thn, t))
      && (!kind.StaticTrue? ==> forall i :: 0 <= i < |els| ==> Returns(g, env', els[i], t))
    case While(pre, loop) => ReturnsAll(g, env, pre, t) && Returns(g, EnvAt(g, env, pre, |pre|), loop, t)
    case Try(tried, handler) => Returns(g, env, tried, t) && Returns(g, env, handler, t)
    case _ => true
  }

  predicate ReturnsAll(g: Typing, env: Env, ss: seq<Stmt>, t: Type)
    decreases ss, 0
  {
    forall i :: 0 <= i < |ss| && LiveAt(ss, i) ==> Returns(g, EnvAt(g, env, ss, i), ss[i], t)
  }

  // No live return.
  predicate Silent(s: Stmt) {
    match s
    case Block(body) => forall i :: 0 <= i < |body| && LiveAt(body, i) ==> Silent(body[i])
    case Return(_) => false
    case If(_, _, kind, thn, els) =>
      (!kind.StaticFalse? ==> Silent(thn)) && (!kind.StaticTrue? ==> forall i :: 0 <= i < |els| ==> Silent(els[i]))
    case While(_, loop) => Silent(loop)
    case Try(tried, handler) => Silent(tried) && Silent(handler)
    case _ => true
  }

  // g gives every entry the type of all its live returns, void if it has none.
  predicate Agrees(p: Program, g: Typing) {
    g.Keys == p.Keys && forall e :: e in p ==>
      match p[e]
      case Declared(t) => g[e] == t
      case Inferred(params, body) => Returns(g, params, body, g[e]) && (Silent(body) ==> g[e] == Void)
  }

  // Entries with a result never run off their end.
  predicate Conclusive(p: Program, g: Typing, except: set<EntryId>) {
    forall e :: e in p && e !in except && p[e].Inferred? && e in g && g[e] != Void ==> !Falls(p[e].body)
  }

  predicate Consistent(g: Typing, table: Table) {
    forall e :: e in table ==> e in g && table[e] == g[e]
  }

  // ----- inference is sound -------------------------------------------------

  // What an analysis may end with when a typing exists: success, or one of the
  // two complaints about recursion.
  predicate Harmless<T>(r: Checked<T>) {
    r.Ok? || r.error == PropagationFailed || r.error == NullCondition
  }

  lemma {:induction false} ExprSound(p: Program, g: Typing, analyzing: set<EntryId>, table: Table, env: Env, e: Expr)
    requires Bound(p) && BoundExpr(p, e) && Agrees(p, g) && Conclusive(p, g, analyzing) && Consistent(g, table)
    requires TypeOf(g, env, e).Some?
    ensures var r := AnExpr(p, analyzing, table, env, e);
            && Harmless(r)
            && (r.Ok? ==> Consistent(g, r.value.table) && (r.value.t.Some? ==> r.value.t == TypeOf(g, env, e)))
    decreases Rest(p, analyzing), 1, e
  {
    match e
    case CallE(callee, args) =>
      ArgsSound(p, g, analyzing, table, env, args, |args|);
      var a := AnArgs(p, analyzing, table, env, args, |args|);
      if a.Ok? && a.value.t.Some? { CallableSound(p, g, analyzing, a.value.table, callee); }
    case _ =>
  }

  lemma {:induction false} ArgsSound(p: Program, g: Typing, analyzing: set<EntryId>, table: Table, env: Env, args: seq<Expr>, n: nat)
    requires Bound(p) && n <= |args| && (forall i :: 0 <= i < |args| ==> BoundExpr(p, args[i]))
    requires Agrees(p, g) && Conclusive(p, g, analyzing) && Consistent(g, table) && ArgsTyped(g, env, args)
    ensures var r := AnArgs(p, analyzing, table, env, args, n);
            Harmless(r) && (r.Ok? ==> Consistent(g, r.value.table))
    decreases Rest(p, analyzing), 1, args, n
  {
    if n > 0 {
      ArgsSound(p, g, analyzing, table, env, args, n - 1);
      var a := AnArgs(p, analyzing, table, env, args, n - 1);
      if a.Ok? && a.value.t.Some? { ExprSound(p, g, analyzing, a.value.table, env, args[n - 1]); }
    }
  }

  lemma {:induction false} CallableSound(p: Program, g: Typing, analyzing: set<EntryId>, table: Table, e: EntryId)
    requires Bound(p) && e in p && Agrees(p, g) && Conclusive(p, g, analyzing) && Consistent(g, table)
    ensures var r := AnCallable(p, analyzing, table, e);
            Harmless(r) && (r.Ok? ==> Consistent(g, r.value))
    decreases Rest(p, analyzing), 0
  {
    if e !in table && e !in analyzing {
      RestShrinks(p, analyzing, e);
      BodySound(p, g, analyzing + {e}, table, e);
    }
  }

  lemma {:induction false} BodySound(p: Program, g: Typing, analyzing: set<EntryId>, table: Table, e: EntryId)
    requires e in p && e in g && (p[e].Inferred? && g[e] != Void ==> !Falls(p[e].body))
    requires Bound(p) && Agrees(p, g) && Conclusive(p, g, analyzing) && Consistent(g, table)
    ensures var r := AnCodeBody(p, analyzing, table, e);
            Harmless(r) && (r.Ok? ==> Consistent(g, r.value))
    decreases Rest(p, analyzing), 3
  {
    hide AnStmt, BoundStmt, Rest;
    match p[e]
    case Declared(_) =>
    case Inferred(params, body) =>
      StmtSound(p, g, analyzing, table, Ctx(false, None), params, body, g[e]);
  }

  // The context holds t or nothing yet.
  predicate Expects(ctx: Ctx, t: Type) {
    ctx.ret.Some? ==> ctx.ret.value == t
  }

  // Where no recursion got in the way, the analysis saw all that is live.
  predicate Saw(ctx: Ctx, a: Analysed, falls: bool, silent: bool) {
    && (ctx.recursive ==> a.ctx.recursive) && (ctx.ret.Some? ==> a.ctx.ret.Some?)
    && (a.sa == FALLTHROUGH ==> falls)
    && (!a.ctx.recursive ==> a.sa != RECURSIVE && (falls ==> a.sa == FALLTHROUGH) && (a.ctx.ret == None ==> silent))
  }

  predicate StmtOutcome(g: Typing, r: Checked<Analysed>, ctx: Ctx, env: Env, s: Stmt, t: Type) {
    && Harmless(r)
    && (r.Ok? ==> && Consistent(g, r.value.table) && Expects(r.value.ctx, t)
                  && (r.value.sa == FALLTHROUGH ==> r.value.env == Behind(g, env, s))
                  && Saw(ctx, r.value, Falls(s), Silent(s)))
  }

  lemma {:induction false} StmtSound(p: Program, g: Typing, analyzing: set<EntryId>, table: Table, ctx: Ctx, env: Env, s: Stmt, t: Type)
    requires Bound(p) && BoundStmt(p, s) && Agrees(p, g) && Conclusive(p, g, analyzing) && Consistent(g, table)
    requires Returns(g, env, s, t) && Expects(ctx, t)
    ensures StmtOutcome(g, AnStmt(p, analyzing, table, ctx, env, s), ctx, env, s, t)
    decreases Rest(p, analyzing), 2, s, 2
  {
    hide Rest, TypeOf, Agrees, Conclusive, Consistent, Bound, AnIf, AnWhile, AnTry, AnBlock;
    match s
    case Block(body) => BlockStmtSound(p, g, analyzing, table, ctx, env, s, t);
    case Bind(x, e) => ExprSound(p, g, analyzing, table, env, e);
    case Return(values) => if values != [] { ExprSound(p, g, analyzing, table, env, values[0]); }
    case If(_, _, _, _, _) => IfSound(p, g, analyzing, table, ctx, env, s, t);
    case While(_, _) => WhileSound(p, g, analyzing, table, ctx, env, s, t);
    case Try(_, _) => TrySound(p, g, analyzing, table, ctx, env, s, t);
    case _ =>
  }

  lemma {:induction false} BlockStmtSound(p: Program, g: Typing, analyzing: set<EntryId>, table: Table, ctx: Ctx, env: Env, s: Stmt, t: Type)
    requires s.Block? && Bound(p) && BoundStmt(p, s) && Agrees(p, g) && Conclusive(p, g, analyzing) && Consistent(g, table)
    requires Returns(g, env, s, t) && Expects(ctx, t)
    ensures StmtOutcome(g, AnStmt(p, analyzing, table, ctx, env, s), ctx, env, s, t)
    decreases Rest(p, analyzing), 2, s, 1
  {
    hide Rest, TypeOf, Agrees, Conclusive, Consistent, Bound, ReturnsAll, AnBlock, AnIf, AnWhile, AnTry;
    BlockSound(p, g, analyzing, table, ctx, env, s.body, 0, t);
  }

  lemma {:induction false} WhileSound(p: Program, g: Typing, analyzing: set<EntryId>, table: Table, ctx: Ctx, env: Env, s: Stmt, t: Type)
    requires s.While? && Bound(p) && BoundStmt(p, s) && Agrees(p, g) && Conclusive(p, g, analyzing) && Consistent(g, table)
    requires Returns(g, env, s, t) && Expects(ctx, t)
    ensures StmtOutcome(g, AnWhile(p, analyzing, table, ctx, env, s), ctx, env, s, t)
    decreases Rest(p, analyzing), 2, s, 1
  {
    WhileParts(p, g, env, s, t);
    hide *;
    BlockSound(p, g, analyzing, table, ctx, env, s.pre, 0, t);
    var r := AnBlock(p, analyzing, table, ctx, env, s.pre, 0);
    if r.Ok? && r.value.sa == FALLTHROUGH {
      var a := r.value;
      BlockGives(g, r, ctx, env, s.pre, t);
      StmtSound(p, g, analyzing, a.table, a.ctx, a.env, s.loop, t);
      WhileWhole(p, g, analyzing, table, ctx, env, s, t, r, AnStmt(p, analyzing, a.table, a.ctx, a.env, s.loop));
    } else {
      WhileWhole(p, g, analyzing, table, ctx, env, s, t, r, Fail(Undefined));
    }
  }

  lemma BlockGives(g: Typing, r: Checked<Analysed>, ctx: Ctx, env: Env, ss: seq<Stmt>, t: Type)
    requires BlockOutcome(g, r, ctx, env, ss, 0, t) && r.Ok?
    ensures Consistent(g, r.value.table) && Expects(r.value.ctx, t)
    ensures r.value.sa == FALLTHROUGH ==> r.value.env == EnvAt(g, env, ss, |ss|)
  {
  }

  lemma StmtGives(g: Typing, r: Checked<Analysed>, ctx: Ctx, env: Env, s: Stmt, t: Type)
    requires StmtOutcome(g, r, ctx, env, s, t) && r.Ok?
    ensures Consistent(g, r.value.table) && Expects(r.value.ctx, t)
  {
  }

  lemma WhileWhole(p: Program, g: Typing, analyzing: set<EntryId>, table: Table, ctx: Ctx, env: Env, s: Stmt, t: Type, r: Checked<Analysed>, b: Checked<Analysed>)
    requires s.While? && Bound(p) && BoundStmt(p, s) && r == AnBlock(p, analyzing, table, ctx, env, s.pre, 0)
    requires BlockOutcome(g, r, ctx, env, s.pre, 0, t) && Silent(s) == Silent(s.loop)
    requires forall i :: 0 <= i < |s.pre| ==> Falls(s.pre[i])
    requires r.Ok? && r.value.sa == FALLTHROUGH ==>
               && b == AnStmt(p, analyzing, r.value.table, r.value.ctx, r.value.env, s.loop)
               && StmtOutcome(g, b, r.value.ctx, r.value.env, s.loop, t)
    ensures StmtOutcome(g, AnWhile(p, analyzing, table, ctx, env, s), ctx, env, s, t)
  {
    hide AnBlock, AnStmt, Bound, BoundStmt, Silent, LiveAt, EnvAt, TypeOf, Consistent;
  }

  lemma WhileParts(p: Program, g: Typing, env: Env, s: Stmt, t: Type)
    requires s.While? && BoundStmt(p, s) && Returns(g, env, s, t)
    ensures (forall i :: 0 <= i < |s.pre| ==> BoundStmt(p, s.pre[i])) && BoundStmt(p, s.loop)
    ensures ReturnsAll(g, env, s.pre, t) && Returns(g, EnvAt(g, env, s.pre, |s.pre|), s.loop, t)
    ensures Falls(s) && Silent(s) == Silent(s.loop) && EnvAt(g, env, s.pre, 0) == env && LiveAt(s.pre, 0)
    ensures forall i :: 0 <= i < |s.pre| ==> Falls(s.pre[i])
  {
  }

  lemma {:induction false} TrySound(p: Program, g: Typing, analyzing: set<EntryId>, table: Table, ctx: Ctx, env: Env, s: Stmt, t: Type)
    requires s.Try? && Bound(p) && BoundStmt(p, s) && Agrees(p, g) && Conclusive(p, g, analyzing) && Consistent(g, table)
    requires Returns(g, env, s, t) && Expects(ctx, t)
    ensures StmtOutcome(g, AnTry(p, analyzing, table, ctx, env, s), ctx, env, s, t)
    decreases Rest(p, analyzing), 2, s, 1
  {
    TryParts(p, g, env, s, t);
    hide *;
    StmtSound(p, g, analyzing, table, ctx, env, s.tried, t);
    var r := AnStmt(p, analyzing, table, ctx, env, s.tried);
    if r.Ok? {
      var a := r.value;
      StmtGives(g, r, ctx, env, s.tried, t);
      StmtSound(p, g, analyzing, a.table, a.ctx, env, s.handler, t);
      TryWhole(p, g, analyzing, table, ctx, env, s, t, r, AnStmt(p, analyzing, a.table, a.ctx, env, s.handler));
    } else {
      TryWhole(p, g, analyzing, table, ctx, env, s, t, r, Fail(Undefined));
    }
  }

  lemma TryWhole(p: Program, g: Typing, analyzing: set<EntryId>, table: Table, ctx: Ctx, env: Env, s: Stmt, t: Type, r: Checked<Analysed>, b: Checked<Analysed>)
    requires s.Try? && Bound(p) && BoundStmt(p, s) && BoundStmt(p, s.tried) && BoundStmt(p, s.handler)
    requires r == AnStmt(p, analyzing, table, ctx, env, s.tried) && StmtOutcome(g, r, ctx, env, s.tried, t)
    requires r.Ok? ==>
               && b == AnStmt(p, analyzing, r.value.table, r.value.ctx, env, s.handler)
               && StmtOutcome(g, b, r.value.ctx, env, s.handler, t)
    ensures StmtOutcome(g, AnTry(p, analyzing, table, ctx, env, s), ctx, env, s, t)
  {
    hide AnStmt, Bound, BoundStmt, TypeOf, Consistent;
  }

  lemma TryParts(p: Program, g: Typing, env: Env, s: Stmt, t: Type)
    requires s.Try? && BoundStmt(p, s) && Returns(g, env, s, t)
    ensures BoundStmt(p, s.tried) && BoundStmt(p, s.handler) && Returns(g, env, s.tried, t) && Returns(g, env, s.handler, t)
    ensures Falls(s) == (Falls(s.tried) || Falls(s.handler)) && Silent(s) == (Silent(s.tried) && Silent(s.handler))
  {
  }

  predicate BlockOutcome(g: Typing, r: Checked<Analysed>, ctx: Ctx, env: Env, ss: seq<Stmt>, i: nat, t: Type)
    requires i <= |ss|
  {
    && Harmless(r)
    && (r.Ok? ==> && Consistent(g, r.value.table) && Expects(r.value.ctx, t)
                  && (r.value.sa == FALLTHROUGH ==> r.value.env == EnvAt(g, env, ss, |ss|))
                  && Saw(ctx, r.value, forall j :: i <= j < |ss| ==> Falls(ss[j]),
                                       forall j :: i <= j < |ss| && LiveAt(ss, j) ==> Silent(ss[j])))
  }

  lemma {:induction false} BlockSound(p: Program, g: Typing, analyzing: set<EntryId>, table: Table, ctx: Ctx, env: Env, ss: seq<Stmt>, i: nat, t: Type)
    requires Bound(p) && i <= |ss| && (forall j :: 0 <= j < |ss| ==> BoundStmt(p, ss[j]))
    requires Agrees(p, g) && Conclusive(p, g, analyzing) && Consistent(g, table)
    requires ReturnsAll(g, env, ss, t) && LiveAt(ss, i) && Expects(ctx, t)
    ensures BlockOutcome(g, AnBlock(p, analyzing, table, ctx, EnvAt(g, env, ss, i), ss, i), ctx, env, ss, i, t)
    decreases Rest(p, analyzing), 2, ss, |ss| - i
  {
    hide *;
    var env' := EnvAt(g, env, ss, i);
    if i < |ss| {
      ItemReturns(g, env, ss, i, t);
      StmtSound(p, g, analyzing, table, ctx, env', ss[i], t);
      var r := AnStmt(p, analyzing, table, ctx, env', ss[i]);
      if r.Ok? && r.value.sa == FALLTHROUGH {
        var a := r.value;
        StmtGives(g, r, ctx, env', ss[i], t);
        OneFurther(g, r, ctx, env, ss, i, t);
        BlockSound(p, g, analyzing, a.table, a.ctx, env, ss, i + 1, t);
        BlockWhole(p, g, analyzing, table, ctx, env, ss, i, t, r, AnBlock(p, analyzing, a.table, a.ctx, a.env, ss, i + 1));
      } else {
        BlockWhole(p, g, analyzing, table, ctx, env, ss, i, t, r, Fail(Undefined));
      }
    } else {
      BlockEnd(p, g, analyzing, table, ctx, env, ss, t);
    }
  }

  lemma ItemReturns(g: Typing, env: Env, ss: seq<Stmt>, i: nat, t: Type)
    requires i < |ss| && ReturnsAll(g, env, ss, t) && LiveAt(ss, i)
    ensures Returns(g, EnvAt(g, env, ss, i), ss[i], t)
  {
  }

  lemma BlockEnd(p: Program, g: Typing, analyzing: set<EntryId>, table: Table, ctx: Ctx, env: Env, ss: seq<Stmt>, t: Type)
    requires Bound(p) && (forall j :: 0 <= j < |ss| ==> BoundStmt(p, ss[j])) && Consistent(g, table) && Expects(ctx, t)
    ensures BlockOutcome(g, AnBlock(p, analyzing, table, ctx, EnvAt(g, env, ss, |ss|), ss, |ss|), ctx, env, ss, |ss|, t)
  {
    hide Consistent, EnvAt, Bound, BoundStmt;
  }

  lemma OneFurther(g: Typing, r: Checked<Analysed>, ctx: Ctx, env: Env, ss: seq<Stmt>, i: nat, t: Type)
    requires i < |ss| && LiveAt(ss, i) && StmtOutcome(g, r, ctx, EnvAt(g, env, ss, i), ss[i], t) && r.Ok? && r.value.sa == FALLTHROUGH
    ensures LiveAt(ss, i + 1) && r.value.env == EnvAt(g, env, ss, i + 1)
  {
    hide Consistent, Silent, Falls, Behind;
  }

  lemma BlockWhole(p: Program, g: Typing, analyzing: set<EntryId>, table: Table, ctx: Ctx, env: Env, ss: seq<Stmt>, i: nat, t: Type, r: Checked<Analysed>, b: Checked<Analysed>)
    requires Bound(p) && i < |ss| && (forall j :: 0 <= j < |ss| ==> BoundStmt(p, ss[j])) && LiveAt(ss, i)
    requires r == AnStmt(p, analyzing, table, ctx, EnvAt(g, env, ss, i), ss[i]) && StmtOutcome(g, r, ctx, EnvAt(g, env, ss, i), ss[i], t)
    requires r.Ok? && r.value.sa == FALLTHROUGH ==>
               && b == AnBlock(p, analyzing, r.value.table, r.value.ctx, r.value.env, ss, i + 1)
               && BlockOutcome(g, b, r.value.ctx, env, ss, i + 1, t)
    ensures BlockOutcome(g, AnBlock(p, analyzing, table, ctx, EnvAt(g, env, ss, i), ss, i), ctx, env, ss, i, t)
  {
    hide AnStmt, Bound, BoundStmt, Silent, Falls, EnvAt, TypeOf, Consistent, Behind;
    if r.Ok? && !Falls(ss[i]) { assert forall j :: i < j < |ss| ==> !LiveAt(ss, j); }
  }

  lemma {:induction false} IfSound(p: Program, g: Typing, analyzing: set<EntryId>, table: Table, ctx: Ctx, env: Env, s: Stmt, t: Type)
    requires s.If? && Bound(p) && BoundStmt(p, s) && Agrees(p, g) && Conclusive(p, g, analyzing) && Consistent(g, table)
    requires Returns(g, env, s, t) && Expects(ctx, t)
    ensures StmtOutcome(g, AnIf(p, analyzing, table, ctx, env, s), ctx, env, s, t)
    decreases Rest(p, analyzing), 2, s, 1
  {
    hide *;
    IfParts(p, g, env, s, t);
    var pre := s.pre;
    BlockSound(p, g, analyzing, table, ctx, env, pre, 0, t);
    var r := AnBlock(p, analyzing, table, ctx, env, pre, 0);
    if r.Ok? && r.value.sa == FALLTHROUGH {
      var a := r.value;
      BlockGives(g, r, ctx, env, pre, t);
      CondSound(p, g, analyzing, a.table, a.env, s.cond);
      var c := AnExpr(p, analyzing, a.table, a.env, s.cond);
      if c.Ok? && c.value.t.Some? { BranchesSound(p, g, analyzing, c.value.table, a.ctx, a.env, s, t); }
      IfWhole(p, g, analyzing, table, ctx, env, s, t, r, c);
    } else {
      IfWhole(p, g, analyzing, table, ctx, env, s, t, r, Fail(Undefined));
    }
  }

  lemma {:induction false} CondSound(p: Program, g: Typing, analyzing: set<EntryId>, table: Table, env: Env, e: Expr)
    requires Bound(p) && BoundExpr(p, e) && Agrees(p, g) && Conclusive(p, g, analyzing) && Consistent(g, table) && IsValue(TypeOf(g, env, e))
    ensures CondOutcome(g, AnExpr(p, analyzing, table, env, e))
    ensures var r := AnExpr(p, analyzing, table, env, e); r.Ok? ==> Consistent(g, r.value.table)
    decreases Rest(p, analyzing), 2, e
  {
    ExprSound(p, g, analyzing, table, env, e);
  }

  predicate CondOutcome(g: Typing, r: Checked<Typed>) {
    Harmless(r) && (r.Ok? ==> Consistent(g, r.value.table) && r.value.t != Some(Void))
  }

  lemma IfWhole(p: Program, g: Typing, analyzing: set<EntryId>, table: Table, ctx: Ctx, env: Env, s: Stmt, t: Type, r: Checked<Analysed>, c: Checked<Typed>)
    requires s.If? && Bound(p) && BoundStmt(p, s) && r == AnBlock(p, analyzing, table, ctx, env, s.pre, 0)
    requires BlockOutcome(g, r, ctx, env, s.pre, 0, t) && forall i :: 0 <= i < |s.pre| ==> Falls(s.pre[i])
    requires r.Ok? && r.value.sa == FALLTHROUGH ==>
               && c == AnExpr(p, analyzing, r.value.table, r.value.env, s.cond) && CondOutcome(g, c)
               && (c.Ok? && c.value.t.Some? ==> BranchesOutcome(p, g, analyzing, c.value.table, r.value.ctx, r.value.env, s, t))
    ensures StmtOutcome(g, AnIf(p, analyzing, table, ctx, env, s), ctx, env, s, t)
  {
    hide AnBlock, AnExpr, AnBranch, AnStmt, Bound, BoundStmt, Silent, Falls, EnvAt, TypeOf, Consistent, LiveAt;
  }

  lemma IfParts(p: Program, g: Typing, env: Env, s: Stmt, t: Type)
    requires s.If? && BoundStmt(p, s) && Returns(g, env, s, t)
    ensures (forall i :: 0 <= i < |s.pre| ==> BoundStmt(p, s.pre[i])) && BoundExpr(p, s.cond)
    ensures ReturnsAll(g, env, s.pre, t) && IsValue(TypeOf(g, EnvAt(g, env, s.pre, |s.pre|), s.cond))
    ensures var env' := EnvAt(g, env, s.pre, |s.pre|);
            && (!s.kind.StaticFalse? ==> Returns(g, env', s.thn, t))
            && (!s.kind.StaticTrue? ==> forall i :: 0 <= i < |s.els| ==> Returns(g, env', s.els[i], t))
    ensures EnvAt(g, env, s.pre, 0) == env && LiveAt(s.pre, 0) && forall i :: 0 <= i < |s.pre| ==> Falls(s.pre[i])
  {
  }

  // What the two branches come to, one after the other.
  predicate BranchesOutcome(p: Program, g: Typing, analyzing: set<EntryId>, table: Table, ctx: Ctx, env: Env, s: Stmt, t: Type)
    requires s.If? && Bound(p) && BoundStmt(p, s)
  {
    var r1 := AnBranch(p, analyzing, table, ctx, env, if s.kind.StaticFalse? then [] else [s.thn], s);
    && Harmless(r1)
    && (r1.Ok? ==>
                  var r2 := AnBranch(p, analyzing, r1.value.table, r1.value.ctx, env, if s.kind.StaticTrue? then [] else s.els, s);
                  && Harmless(r2)
                  && (r2.Ok? ==> && Consistent(g, r2.value.table) && Expects(r2.value.ctx, t)
                                 && Saw(ctx, Analysed(r2.value.table, r2.value.ctx, env, Combine(r1.value.sa, r2.value.sa)), Falls(s), Silent(s))))
  }

  lemma {:induction false} BranchesSound(p: Program, g: Typing, analyzing: set<EntryId>, table: Table, ctx: Ctx, env: Env, s: Stmt, t: Type)
    requires s.If? && Bound(p) && BoundStmt(p, s) && Agrees(p, g) && Conclusive(p, g, analyzing) && Consistent(g, table) && Expects(ctx, t)
    requires !s.kind.StaticFalse? ==> Returns(g, env, s.thn, t)
    requires !s.kind.StaticTrue? ==> forall i :: 0 <= i < |s.els| ==> Returns(g, env, s.els[i], t)
    ensures BranchesOutcome(p, g, analyzing, table, ctx, env, s, t)
    decreases Rest(p, analyzing), 2, s, 0
  {
    hide Rest, TypeOf, Agrees, Conclusive, Consistent, AnStmt, Returns, AnBlock, AnExpr, Bound, BoundExpr, ReturnsAll, EnvAt, LiveAt;
    if !s.kind.StaticFalse? { StmtSound(p, g, analyzing, table, ctx, env, s.thn, t); }
    var r1 := AnBranch(p, analyzing, table, ctx, env, if s.kind.StaticFalse? then [] else [s.thn], s);
    if r1.Ok? && !s.kind.StaticTrue? && s.els != [] {
      assert s.els[0] in s.els;
      StmtSound(p, g, analyzing, r1.value.table, r1.value.ctx, env, s.els[0], t);
    }
  }

  // ----- any order of calls -------------------------------------------------

  // The table after analysing each of the entries in turn.
  function AnAll(p: Program, es: seq<EntryId>): Checked<Table>
    requires Bound(p) && forall i :: 0 <= i < |es| ==> es[i] in p
  {
    if es == [] then Ok(map[])
    else
      var table :- AnAll(p, es[..|es| - 1]);
      AnCallable(p, {}, table, es[|es| - 1])
  }

  // Whatever is analysed, in whatever order: an entry marked analyzed has the
  // type every typing gives it, and no return is reported as disagreeing.
  lemma {:induction false} InferenceSound(p: Program, g: Typing, es: seq<EntryId>)
    requires Bound(p) && Agrees(p, g) && Conclusive(p, g, {}) && forall i :: 0 <= i < |es| ==> es[i] in p
    ensures Harmless(AnAll(p, es))
    ensures AnAll(p, es).Ok? ==> forall e :: e in AnAll(p, es).value ==> e in g && AnAll(p, es).value[e] == g[e]
  {
    hide Bound, Agrees, Conclusive, AnCallable;
    if es != [] {
      InferenceSound(p, g, es[..|es| - 1]);
      var r := AnAll(p, es[..|es| - 1]);
      if r.Ok? {
        TableConsistent(p, g, es[..|es| - 1]);
        CallableSound(p, g, {}, r.value, es[|es| - 1]);
      }
    }
  }

  lemma {:induction false} TableConsistent(p: Program, g: Typing, es: seq<EntryId>)
    requires Bound(p) && Agrees(p, g) && Conclusive(p, g, {}) && forall i :: 0 <= i < |es| ==> es[i] in p
    requires AnAll(p, es).Ok?
    ensures Consistent(g, AnAll(p, es).value)
  {
    hide Bound, Agrees, Conclusive, AnCallable;
    if es != [] {
      TableConsistent(p, g, es[..|es| - 1]);
      CallableSound(p, g, {}, AnAll(p, es[..|es| - 1]).value, es[|es| - 1]);
    }
  }

  // Two orders of analysis never mark an entry with two types.
  lemma OrderIrrelevant(p: Program, g: Typing, es: seq<EntryId>, es': seq<EntryId>, e: EntryId)
    requires Bound(p) && Agrees(p, g) && Conclusive(p, g, {})
    requires (forall i :: 0 <= i < |es| ==> es[i] in p) && forall i :: 0 <= i < |es'| ==> es'[i] in p
    requires AnAll(p, es).Ok? && e in AnAll(p, es).value && AnAll(p, es').Ok? && e in AnAll(p, es').value
    ensures AnAll(p, es).value[e] == AnAll(p, es').value[e]
  {
    InferenceSound(p, g, es);
    InferenceSound(p, g, es');
  }

  // With every other entry consistent, the analysis of a body takes its entry
  // for something else than the typing does if and only if it falls through,
  // has met recursion and has seen no return, while the typing gives a result.
  lemma WrongIff(p: Program, g: Typing, analyzing: set<EntryId>, table: Table, e: EntryId)
    requires Bound(p) && e in p && e in analyzing && p[e].Inferred? && Agrees(p, g) && Conclusive(p, g, analyzing) && Consistent(g, table)
    requires AnCodeBody(p, analyzing, table, e).Ok?
    ensures var t := AnCodeBody(p, analyzing, table, e).value;
            var a := AnStmt(p, analyzing, table, Ctx(false, None), p[e].params, p[e].body);
            && a.Ok? && Consistent(g, t - {e})
            && (e in t && t[e] != g[e] <==>
                a.value.sa == FALLTHROUGH && a.value.ctx == Ctx(true, None) && g[e] != Void)
  {
    StmtSound(p, g, analyzing, table, Ctx(false, None), p[e].params, p[e].body, g[e]);
    hide AnStmt, Returns, Falls, BoundStmt;
  }

  // ----- recursion in a loop ------------------------------------------------

  // A loop whose body begins with a recursive call: the analysis leaves the body
  // there, never sees the return behind it, and takes the entry for void.
  function Looping(): Program {
    map[0 := Inferred(map[], Block([While([], Block([Bind("x", CallE(0, [])), Return([Const(Ty(1))])]))]))]
  }

  lemma LoopMistaken()
    ensures Bound(Looping()) && Agrees(Looping(), map[0 := Ty(1)])
    ensures !Conclusive(Looping(), map[0 := Ty(1)], {})
    ensures AnCallable(Looping(), {}, map[], 0) == Ok(map[0 := Void])
  {
    var p, g: Typing := Looping(), map[0 := Ty(1)];
    LoopBound();
    LoopTyped();
    var inner := [Bind("x", CallE(0, [])), Return([Const(Ty(1))])];
    var w := While([], Block(inner));
    var busy: set<EntryId> := {} + {0};
    var none: Table := map[];
    assert AnArgs(p, busy, none, map[], [], 0) == Ok(Typed(none, Some(Void)));
    assert AnCallable(p, busy, none, 0) == Ok(none);
    assert AnExpr(p, busy, none, map[], CallE(0, [])) == Ok(Typed(none, None));
    assert AnStmt(p, busy, none, Ctx(false, None), map[], inner[0]) == Ok(Analysed(none, Ctx(true, None), map[], RECURSIVE));
    assert AnBlock(p, busy, none, Ctx(false, None), map[], inner, 0) == Ok(Analysed(none, Ctx(true, None), map[], RECURSIVE));
    assert AnStmt(p, busy, none, Ctx(false, None), map[], Block(inner)) == Ok(Analysed(none, Ctx(true, None), map[], RECURSIVE));
    assert AnBlock(p, busy, none, Ctx(false, None), map[], [], 0) == Ok(Analysed(none, Ctx(false, None), map[], FALLTHROUGH));
    assert AnStmt(p, busy, none, Ctx(false, None), map[], w) == Ok(Analysed(none, Ctx(true, None), map[], FALLTHROUGH));
    assert AnBlock(p, busy, none, Ctx(true, None), map[], [w], 1) == Ok(Analysed(none, Ctx(true, None), map[], FALLTHROUGH));
    assert AnBlock(p, busy, none, Ctx(false, None), map[], [w], 0) == Ok(Analysed(none, Ctx(true, None), map[], FALLTHROUGH));
    assert AnStmt(p, busy, none, Ctx(false, None), map[], Block([w])) == Ok(Analysed(none, Ctx(true, None), map[], FALLTHROUGH));
  }

  lemma LoopBound()
    ensures Bound(Looping())
  {
    var inner := [Bind("x", CallE(0, [])), Return([Const(Ty(1))])];
    assert BoundStmt(Looping(), inner[0]) && BoundStmt(Looping(), inner[1]);
    assert BoundStmt(Looping(), Block(inner));
    assert BoundStmt(Looping(), While([], Block(inner)));
  }

  lemma LoopTyped()
    ensures Agrees(Looping(), map[0 := Ty(1)]) && !Conclusive(Looping(), map[0 := Ty(1)], {})
  {
    var g: Typing := map[0 := Ty(1)];
    var inner := [Bind("x", CallE(0, [])), Return([Const(Ty(1))])];
    var w := While([], Block(inner));
    assert TypeOf(g, map[], CallE(0, [])) == Some(Ty(1));
    assert EnvAt(g, map[], inner, 0) == map[];
    assert Returns(g, map[], inner[0], Ty(1));
    assert forall env: Env :: Returns(g, env, inner[1], Ty(1));
    assert ReturnsAll(g, map[], inner, Ty(1));
    assert EnvAt(g, map[], [], 0) == map[] && ReturnsAll(g, map[], [], Ty(1));
    assert Returns(g, map[], w, Ty(1)) && EnvAt(g, map[], [w], 0) == map[];
    assert ReturnsAll(g, map[], [w], Ty(1));
    assert !Silent(inner[1]) && Falls(inner[0]);
    assert LiveAt(inner, 1);
    assert !Silent(Block(inner)) && !Silent(w);
    assert Falls(w) && LiveAt([w], 0) && !Silent(Block([w]));
    assert Falls(Block([w]));
  }

  // ----- recursion elsewhere ------------------------------------------------

  function Self(): Stmt { Return([CallE(0, [])]) }

  // With nothing but recursion on every way there is no type yet, and no complaint.
  lemma OnlyRecursion()
    ensures var p := map[0 := Inferred(map[], If([], Const(Ty(7)), Dynamic, Self(), [Self()]))];
            Bound(p) && AnCallable(p, {}, map[], 0) == Ok(map[])
  {
    var s := If([], Const(Ty(7)), Dynamic, Self(), [Self()]);
    var p := map[0 := Inferred(map[], s)];
    assert BoundStmt(p, Self());
    SelfRecurs(p, map[]);
    assert AnIf(p, {} + {0}, map[], Ctx(false, None), map[], s) == Ok(Analysed(map[], Ctx(true, None), map[], RECURSIVE));
  }

  // Where the other way ends without a return, the type cannot be found.
  lemma ThrowOrRecursion()
    ensures var p := map[0 := Inferred(map[], If([], Const(Ty(7)), Dynamic, Leave, [Self()]))];
            Bound(p) && AnCallable(p, {}, map[], 0) == Fail(PropagationFailed)
  {
    var s := If([], Const(Ty(7)), Dynamic, Leave, [Self()]);
    var p := map[0 := Inferred(map[], s)];
    assert BoundStmt(p, Self());
    SelfRecurs(p, map[]);
    var busy: set<EntryId> := {} + {0};
    assert AnExpr(p, busy, map[], map[], s.cond) == Ok(Typed(map[], Some(Ty(7))));
    assert AnBranch(p, busy, map[], Ctx(false, None), map[], [s.thn], s) == Ok(Analysed(map[], Ctx(false, None), map[], TERMINATED));
    assert AnBranch(p, busy, map[], Ctx(false, None), map[], s.els, s) == Ok(Analysed(map[], Ctx(true, None), map[], RECURSIVE));
    assert AnIf(p, busy, map[], Ctx(false, None), map[], s) == Ok(Analysed(map[], Ctx(true, None), map[], TERMINATED));
  }

  // With a return on the other way, that is the type.
  lemma ReturnOrRecursion()
    ensures var p := map[0 := Inferred(map[], If([], Const(Ty(7)), Dynamic, Self(), [Return([Const(Ty(1))])]))];
            Bound(p) && AnCallable(p, {}, map[], 0) == Ok(map[0 := Ty(1)])
  {
    var s := If([], Const(Ty(7)), Dynamic, Self(), [Return([Const(Ty(1))])]);
    var p := map[0 := Inferred(map[], s)];
    assert BoundStmt(p, Self()) && BoundStmt(p, Return([Const(Ty(1))]));
    SelfRecurs(p, map[]);
    var busy: set<EntryId> := {} + {0};
    assert AnExpr(p, busy, map[], map[], s.cond) == Ok(Typed(map[], Some(Ty(7))));
    assert AnBranch(p, busy, map[], Ctx(false, None), map[], [s.thn], s) == Ok(Analysed(map[], Ctx(true, None), map[], RECURSIVE));
    assert AnExpr(p, busy, map[], map[], Const(Ty(1))) == Ok(Typed(map[], Some(Ty(1))));
    assert AnBranch(p, busy, map[], Ctx(true, None), map[], s.els, s) == Ok(Analysed(map[], Ctx(true, Some(Ty(1))), map[], TERMINATED));
    assert AnIf(p, busy, map[], Ctx(false, None), map[], s) == Ok(Analysed(map[], Ctx(true, Some(Ty(1))), map[], TERMINATED));
  }

  lemma SelfRecurs(p: Program, table: Table)
    requires Bound(p) && 0 in p && 0 !in table
    ensures forall ctx :: AnStmt(p, {} + {0}, table, ctx, map[], Self()) == Ok(Analysed(table, ctx.(recursive := true), map[], RECURSIVE))
  {
    assert AnArgs(p, {} + {0}, table, map[], [], 0) == Ok(Typed(table, Some(Void)));
    assert AnCallable(p, {} + {0}, table, 0) == Ok(table);
    assert AnExpr(p, {} + {0}, table, map[], CallE(0, [])) == Ok(Typed(table, None));
  }

  // ----- the analyser, in place ---------------------------------------------

  class AnalysisContext {
    var hasRecursivePropagation: bool
    var returnTypes: Option<Type>     // None until returnInitialized

    function State(): Ctx
      reads this
    {
      Ctx(hasRecursivePropagation, returnTypes)
    }

    constructor ()
      ensures State() == Ctx(false, None)
    {
      hasRecursivePropagation, returnTypes := false, None;
    }
  }

  class Analyzer {
    const program: Program
    var analyzed: Table
    var analyzing: set<EntryId>

    constructor (p: Program)
      ensures program == p && analyzed == map[] && analyzing == {}
    {
      program := p;
      analyzed, analyzing := map[], {};
    }

    method AnalyzeExpr(env: Env, e: Expr) returns (r: Checked<Option<Type>>)
      requires Bound(program) && BoundExpr(program, e)
      modifies this
      ensures var want := AnExpr(program, old(analyzing), old(analyzed), env, e);
              if want.Ok? then r == Ok(want.value.t) && analyzed == want.value.table && analyzing == old(analyzing) else r == Fail(want.error)
      decreases Rest(program, analyzing), 1, e
    {
      match e
      case Const(t) => return Ok(Some(t));
      case Local(x) =>
        if x !in env { return Fail(Undefined); }
        return Ok(Some(env[x]));
      case CallE(callee, args) =>
        var known :- AnalyzeArgs(env, args);
        if !known { return Ok(None); }
        var _ :- AnalyzeCallable(callee);
        return Ok(if callee in analyzed then Some(analyzed[callee]) else None);
    }

    // Whether the types of all arguments are known.
    method AnalyzeArgs(env: Env, args: seq<Expr>) returns (r: Checked<bool>)
      requires Bound(program) && forall i :: 0 <= i < |args| ==> BoundExpr(program, args[i])
      modifies this
      ensures var want := AnArgs(program, old(analyzing), old(analyzed), env, args, |args|);
              if want.Ok? then r == Ok(want.value.t.Some?) && analyzed == want.value.table && analyzing == old(analyzing) else r == Fail(want.error)
      decreases Rest(program, analyzing), 1, args, |args|
    {
      hide AnExpr, Rest;
      var i := 0;
      while i < |args|
        invariant i <= |args| && analyzing == old(analyzing)
        invariant var a := AnArgs(program, old(analyzing), old(analyzed), env, args, i);
                  a.Ok? && a.value.table == analyzed && a.value.t.Some?
        decreases |args| - i
      {
        var t := AnalyzeExpr(env, args[i]);
        if t.Fail? || t.value == None || t.value == Some(Void) {
          ArgsStop(program, old(analyzing), old(analyzed), env, args, i + 1, |args|);
          return if t.Fail? then Fail(t.error) else if t.value == None then Ok(false) else Fail(TypeMismatch);
        }
        i := i + 1;
      }
      return Ok(true);
    }

    method AnalyzeCallable(e: EntryId) returns (r: Checked<()>)
      requires Bound(program) && e in program
      modifies this
      ensures var want := AnCallable(program, old(analyzing), old(analyzed), e);
              if want.Ok? then r == Ok(()) && analyzed == want.value && analyzing == old(analyzing) else r == Fail(want.error)
      decreases Rest(program, analyzing), 0
    {
      if e in analyzed || e in analyzing { return Ok(()); }
      RestShrinks(program, analyzing, e);
      ghost var before := analyzing;
      analyzing := analyzing + {e};
      var _ :- AnalyzeCodeBody(e);
      analyzing := analyzing - {e};
      assert before + {e} - {e} == before;
      return Ok(());
    }

    method AnalyzeCodeBody(e: EntryId) returns (r: Checked<()>)
      requires Bound(program) && e in program
      modifies this
      ensures var want := AnCodeBody(program, old(analyzing), old(analyzed), e);
              if want.Ok? then r == Ok(()) && analyzed == want.value && analyzing == old(analyzing) else r == Fail(want.error)
      decreases Rest(program, analyzing), 3
    {
      match program[e]
      case Declared(t) =>
        analyzed := analyzed[e := t];
        return Ok(());
      case Inferred(params, body) =>
        var ctx := new AnalysisContext();
        var sa, _ :- AnalyzeStatement(ctx, params, body);
        if sa == RECURSIVE && ctx.returnTypes == None { return Ok(()); }
        if ctx.returnTypes.Some? {
          analyzed := analyzed[e := ctx.returnTypes.value];
        } else if sa == TERMINATED && ctx.hasRecursivePropagation {
          return Fail(PropagationFailed);
        } else {
          analyzed := analyzed[e := Void];
        }
        return Ok(());
    }

    // analyzeStatement; env' is the environment for the statements behind it.
    method AnalyzeStatement(ctx: AnalysisContext, env: Env, s: Stmt) returns (r: Checked<StatementAnalysis>, env': Env)
      requires Bound(program) && BoundStmt(program, s)
      modifies this, ctx
      ensures Did(r, env', ctx, old(analyzing), AnStmt(program, old(analyzing), old(analyzed), old(ctx.State()), env, s))
      decreases Rest(program, analyzing), 2, s, 2
    {
      env' := env;
      match s
      case Block(body) =>
        var inner;
        r, inner := AnalyzeBlock(ctx, env, body);
      case Bind(x, e) =>
        var t :- AnalyzeExpr(env, e);
        if t == None {
          ctx.hasRecursivePropagation := true;
          return Ok(RECURSIVE), env;
        }
        if t.value == Void { return Fail(TypeMismatch), env; }
        return Ok(FALLTHROUGH), env[x := t.value];
      case Return(values) => r := AnalyzeReturn(ctx, env, values);
      case If(_, _, _, _, _) => r := AnalyzeIf(ctx, env, s);
      case While(pre, loop) => r := AnalyzeWhile(ctx, env, s);
      case Try(tried, handler) =>
        var sa1, _ :- AnalyzeStatement(ctx, env, tried);
        var sa2, _ :- AnalyzeStatement(ctx, env, handler);
        return Ok(Combine(sa1, sa2)), env;
      case Leave => return Ok(TERMINATED), env;
      case Other => return Ok(FALLTHROUGH), env;
    }

    // r, env' and the fields are what the specification computed in want.
    predicate Did(r: Checked<StatementAnalysis>, env': Env, ctx: AnalysisContext, before: set<EntryId>, want: Checked<Analysed>)
      reads this, ctx
    {
      if want.Ok? then
        && r == Ok(want.value.sa) && env' == want.value.env && ctx.State() == want.value.ctx
        && analyzed == want.value.table && analyzing == before
      else r == Fail(want.error)
    }

    method AnalyzeReturn(ctx: AnalysisContext, env: Env, values: seq<Expr>) returns (r: Checked<StatementAnalysis>)
      requires Bound(program) && BoundStmt(program, Return(values))
      modifies this, ctx
      ensures Did(r, env, ctx, old(analyzing), AnStmt(program, old(analyzing), old(analyzed), old(ctx.State()), env, Return(values)))
      decreases Rest(program, analyzing), 2, Return(values), 1
    {
      var t: Option<Type> := Some(Void);
      if values != [] {
        t :- AnalyzeExpr(env, values[0]);
        if t == Some(Void) { return Fail(TypeMismatch); }
      }
      if t == None {
        ctx.hasRecursivePropagation := true;
        return Ok(RECURSIVE);
      }
      if ctx.returnTypes.Some? && ctx.returnTypes != t { return Fail(TypeMismatch); }
      ctx.returnTypes := t;
      return Ok(TERMINATED);
    }

    method AnalyzeBlock(ctx: AnalysisContext, env: Env, ss: seq<Stmt>) returns (r: Checked<StatementAnalysis>, env': Env)
      requires Bound(program) && forall j :: 0 <= j < |ss| ==> BoundStmt(program, ss[j])
      modifies this, ctx
      ensures Did(r, env', ctx, old(analyzing), AnBlock(program, old(analyzing), old(analyzed), old(ctx.State()), env, ss, 0))
      decreases Rest(program, analyzing), 2, ss, |ss|
    {
      env' := env;
      var i := 0;
      while i < |ss|
        invariant i <= |ss| && analyzing == old(analyzing)
        invariant AnBlock(program, analyzing, analyzed, ctx.State(), env', ss, i)
               == AnBlock(program, old(analyzing), old(analyzed), old(ctx.State()), env, ss, 0)
        decreases |ss| - i
      {
        var sa, behind :- AnalyzeStatement(ctx, env', ss[i]);
        env' := behind;
        if sa != FALLTHROUGH { return Ok(sa), env'; }
        i := i + 1;
      }
      return Ok(FALLTHROUGH), env';
    }

    method AnalyzeIf(ctx: AnalysisContext, env: Env, s: Stmt) returns (r: Checked<StatementAnalysis>)
      requires s.If? && Bound(program) && BoundStmt(program, s)
      modifies this, ctx
      ensures Did(r, env, ctx, old(analyzing), AnIf(program, old(analyzing), old(analyzed), old(ctx.State()), env, s))
      decreases Rest(program, analyzing), 2, s, 1
    {
      var sa, env2 :- AnalyzeBlock(ctx, env, s.pre);
      if sa != FALLTHROUGH { return Ok(sa); }
      var cond :- AnalyzeExpr(env2, s.cond);
      if cond == None { return Fail(NullCondition); }
      if cond.value == Void { return Fail(TypeMismatch); }
      var thenResult, elseResult := FALLTHROUGH, FALLTHROUGH;
      if !s.kind.StaticFalse? {
        var sa1, _ :- AnalyzeStatement(ctx, env2, s.thn);
        thenResult := sa1;
      }
      if !s.kind.StaticTrue? && s.els != [] {
        var sa2, _ :- AnalyzeStatement(ctx, env2, s.els[0]);
        elseResult := sa2;
      }
      return Ok(Combine(thenResult, elseResult));
    }

    method AnalyzeWhile(ctx: AnalysisContext, env: Env, s: Stmt) returns (r: Checked<StatementAnalysis>)
      requires s.While? && Bound(program) && BoundStmt(program, s)
      modifies this, ctx
      ensures Did(r, env, ctx, old(analyzing), AnWhile(program, old(analyzing), old(analyzed), old(ctx.State()), env, s))
      decreases Rest(program, analyzing), 2, s, 1
    {
      var sa, env2 :- AnalyzeBlock(ctx, env, s.pre);
      if sa != FALLTHROUGH { return Ok(sa); }
      var _, _ :- AnalyzeStatement(ctx, env2, s.loop);
      return Ok(FALLTHROUGH);
    }
  }

  lemma ArgsStop(p: Program, analyzing: set<EntryId>, table: Table, env: Env, args: seq<Expr>, m: nat, n: nat)
    requires Bound(p) && m <= n <= |args| && forall i :: 0 <= i < |args| ==> BoundExpr(p, args[i])
    requires var r := AnArgs(p, analyzing, table, env, args, m); r.Fail? || r.value.t == None
    ensures AnArgs(p, analyzing, table, env, args, n) == AnArgs(p, analyzing, table, env, args, m)
  {
    if m < n { ArgsStop(p, analyzing, table, env, args, m, n - 1); }
  }
}
