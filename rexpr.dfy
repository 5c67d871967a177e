/**
  The representation engine seen from the incremental-maintenance core: a closed
  datatype of R-expression node kinds, the values and variables they mention, and
  the identities under which terms are registered.  The engine's own algorithms
  (simplify, saturate, the optimizer, the compiler) are not part of this module.
*/
module RExprs {
  import opened Wrappers

  /** A runtime value: what variables are bound to and what memo keys are made of. */
  datatype Value =
    | Int(i: int)
    | Bool(b: bool)
    | Str(s: string)
    | Structure(name: string, arguments: seq<Value>)

  /** Python truthiness of a value; structures are objects and hence truthy. */
  predicate Truthy(v: Value) {
    match v
    case Int(i) => i != 0
    case Bool(b) => b
    case Str(s) => s != ""
    case Structure(_, _) => true
  }

  /**
    A variable of an R-expression: a positional argument, the result variable, a
    local variable, or a constant variable that is bound to a fixed value.
  */
  datatype Var = Arg(index: nat) | Ret | Local(name: string) | Constant(value: Value)

  /** A binding pattern: position i is true when variable i is known (bound). */
  type Mode = seq<bool>

  /** k is pointwise below m: same length, and every position bound in k is bound in m. */
  predicate Leq(k: Mode, m: Mode) {
    |k| == |m| && forall i :: 0 <= i < |k| ==> (k[i] ==> m[i])
  }

  /** All bound positions. */
  function Trues(n: nat): (m: Mode)
    ensures |m| == n && forall i :: 0 <= i < n ==> m[i]
  {
    if n == 0 then [] else Trues(n - 1) + [true]
  }

  /** All free positions. */
  function Falses(n: nat): (m: Mode)
    ensures |m| == n && forall i :: 0 <= i < n ==> !m[i]
  {
    if n == 0 then [] else Falses(n - 1) + [false]
  }

  /** The argument variables 0 .. n-1. */
  function ArgVars(n: int): (vs: seq<Var>)
    ensures |vs| == if n < 0 then 0 else n
    ensures forall i :: 0 <= i < |vs| ==> vs[i] == Arg(i)
  {
    if n <= 0 then [] else ArgVars(n - 1) + [Arg(n - 1)]
  }

  /** The key of a partition branch: a constant or None for every unioned variable. */
  type PartKey = seq<Option<Value>>

  /**
    The identity under which a term is registered: a (name, arity) pair, or a merged
    expression, whose identity is its expression alone (context.py:470-474).
  */
  datatype TermId = Functor(name: string, arity: nat) | Merged(expression: RExpr)

  /**
    A compiled expression: the term it compiles, the exposed variables and the
    variable order fixed when it was created.
  */
  datatype CompiledExpression = CompiledExpression(termRef: TermId, exposedVars: seq<Var>, variableOrder: seq<Var>)

  /** The node kinds of the representation that the core inspects. */
  datatype RExpr =
    | Terminal(multiplicity: int)
    | Intersect(children: seq<RExpr>)
    | Partition(unionedVars: seq<Var>, branches: seq<Branch>)
    | Unify(v1: Var, v2: Var)
      /** A call; varMap pairs each of the callee's exposed variables with the
          caller's variable it is mapped to.  The source holds a dict and the
          planner sorts its keys; here the pairs are taken to be in that order
          already, and nothing states that they are sorted. */
    | CallTerm(termRef: TermId, varMap: seq<(Var, Var)>)
    | Aggregator(result: Var, headVars: seq<Var>, bodyRes: Var, aggregator: string, body: RExpr)
    | ModedOp(opName: string, vars: seq<Var>, det: set<Mode>, nondet: set<Mode>)
    | BuildStructure(structName: string, result: Var, arguments: seq<Var>)
    | Evaluate(termVar: Var, ret: Var, extraArgs: seq<Var>)
    | EvaluateReflect(termVar: Var, ret: Var)
    | ReflectStructure(result: Var, nameVar: Var, argsVar: Var)
    | AssumptionWrapper(assumption: nat, wrapped: RExpr)
    | EnterCompiledCode(compiled: CompiledExpression)
      /** A memo-table reader (UnkMemo or NullMemo) over the table with the given id. */
    | MemoRead(nullMemo: bool, memoVars: seq<Var>, table: nat)

  /** One entry of a partition's branch dictionary: a key and its list of R-expressions. */
  datatype Branch = Branch(key: PartKey, rexprs: seq<RExpr>)

  /** The unconditional failure leaf, `Terminal(0)`. */
  const Failure: RExpr := Terminal(0)

  /** The R-expressions of every branch, in branch order (`Partition.children`). */
  function Flatten(bs: seq<Branch>): (rs: seq<RExpr>)
    ensures |bs| > 0 ==> |rs| >= |bs[0].rexprs|
  {
    if bs == [] then [] else bs[0].rexprs + Flatten(bs[1..])
  }

  /** The variables an R-expression mentions, for bounding the planner's frame. */
  function VarsOf(r: RExpr): set<Var> {
    match r
    case Terminal(_) => {}
    case Intersect(cs) => VarsOfList(cs)
    case Partition(u, bs) => (set v | v in u) + VarsOfBranches(bs)
    case Unify(a, b) => {a, b}
    case CallTerm(_, vm) => set p | p in vm :: p.1
    case Aggregator(res, head, bodyRes, _, body) => {res, bodyRes} + (set v | v in head) + VarsOf(body)
    case ModedOp(_, vs, _, _) => set v | v in vs
    case BuildStructure(_, res, args) => {res} + set v | v in args
    case Evaluate(t, ret, extra) => {t, ret} + set v | v in extra
    case EvaluateReflect(t, ret) => {t, ret}
    case ReflectStructure(res, n, args) => {res, n, args}
    case AssumptionWrapper(_, w) => VarsOf(w)
    case EnterCompiledCode(ce) => set v | v in ce.variableOrder
    case MemoRead(_, vs, _) => set v | v in vs
  }

  function VarsOfList(cs: seq<RExpr>): set<Var> {
    if cs == [] then {} else VarsOf(cs[0]) + VarsOfList(cs[1..])
  }

  function VarsOfBranches(bs: seq<Branch>): set<Var> {
    if bs == [] then {} else VarsOfList(bs[0].rexprs) + VarsOfBranches(bs[1..])
  }

  /** Each child of a list mentions only variables of the list. */
  lemma {:induction false} VarsOfListContains(cs: seq<RExpr>, j: nat)
    requires j < |cs|
    ensures VarsOf(cs[j]) <= VarsOfList(cs)
  {
    if j > 0 {
      VarsOfListContains(cs[1..], j - 1);
      assert cs[1..][j - 1] == cs[j];
    }
  }

  /** Each R-expression of a branch mentions only variables of the branch list. */
  lemma {:induction false} VarsOfBranchesContains(bs: seq<Branch>, i: nat, j: nat)
    requires i < |bs| && j < |bs[i].rexprs|
    ensures VarsOf(bs[i].rexprs[j]) <= VarsOfBranches(bs)
  {
    if i > 0 {
      VarsOfBranchesContains(bs[1..], i - 1, j);
      assert bs[1..][i - 1] == bs[i];
    } else {
      VarsOfListContains(bs[0].rexprs, j);
    }
  }
}
