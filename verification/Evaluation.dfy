/** Evaluating expressions; fuel bounds how deep lambda applications nest. */
module Evaluation {
  import opened Options
  import opened Syntax

  // Numbers, comparisons and the filters that yield plain values are parameters; everything that looks names up,
  // applies lambdas or moves values about is modelled. Nested application is the only way evaluation can fail to end.

  datatype Value =
    | Null
    | Bool(b: bool)
    | Int(n: int)
    | Float(text: string)
    | Str(s: string)
    | Array(items: seq<Value>)
    | Object(fields: map<string, Value>)
    | Lambda(param: string, body: Expr)

  datatype Result = Ok(value: Value) | Err

  /** None: out of fuel. */
  type Outcome = Option<Result>

  datatype Context = Context(input: Value, state: Value, meta: Value, vars: map<string, Value>)

  /** What the model leaves open: operators on values, filters that yield plain values, sorting, integers, zeros. */
  datatype Prims = Prims(
    binary: (string, Value, Value) -> Value,
    plain: (string, Value, seq<Value>) -> Result,
    sorted: seq<Value> -> seq<Value>,
    keyOrder: map<string, Value> -> seq<string>,
    key: Value -> string,
    toInt: Value -> Option<int>,
    zero: string -> bool)

  // ---------- Values ----------

  predicate IsTruthy(p: Prims, v: Value) {
    match v
    case Null => false
    case Bool(b) => b
    case Str(s) => s != ""
    case Int(n) => n != 0
    case Float(t) => !p.zero(t)
    case Array(items) => items != []
    case _ => true
  }

  function Lookup(ctx: Context, name: string): Value {
    if name in ctx.vars then ctx.vars[name]
    else if name == "input" then ctx.input
    else if name == "state" then ctx.state
    else if name == "meta" then ctx.meta
    else if name == "true" then Bool(true)
    else if name == "false" then Bool(false)
    else Null
  }

  function FieldAccess(v: Value, field: string): Value {
    if v.Object? && field in v.fields then v.fields[field] else Null
  }

  function ItemAt(p: Prims, v: Value, index: Value): Value {
    if !v.Array? || p.toInt(index).None? then Null
    else
      var i := p.toInt(index).value;
      var k := if i < 0 then |v.items| + i else i;
      if 0 <= k < |v.items| then v.items[k] else Null
  }

  function LiteralValue(l: Literal): Value {
    match l
    case LString(s) => Str(s)
    case LInt(n) => Int(n)
    case LFloat(t) => Float(t)
    case LBool(b) => Bool(b)
    case LNull => Null
  }

  // ---------- Filters ----------

  const PLAIN_FILTERS := {
    "length", "join", "contains", "sum", "min", "max", "keys", "has", "toInt", "toFloat", "toString", "toBool",
    "json", "round", "upper", "lower", "trim", "split", "replace", "replaceAll", "truncate", "isEmpty", "tokenEstimate"
  }

  const OPERATORS := {"+", "-", "*", "/", "%", "==", "!=", ">", ">=", "<", "<="}

  function Reversed(vs: seq<Value>): seq<Value> {
    if vs == [] then [] else Reversed(vs[1..]) + [vs[0]]
  }

  function Flattened(vs: seq<Value>): seq<Value> {
    if vs == [] then []
    else (if vs[0].Array? then vs[0].items else [vs[0]]) + Flattened(vs[1..])
  }

  function Unique(p: Prims, vs: seq<Value>, seen: set<string>): seq<Value> {
    if vs == [] then []
    else if p.key(vs[0]) in seen then Unique(p, vs[1..], seen)
    else [vs[0]] + Unique(p, vs[1..], seen + {p.key(vs[0])})
  }

  function Concatenated(args: seq<Value>): seq<Value> {
    if args == [] then [] else (if args[0].Array? then args[0].items else []) + Concatenated(args[1..])
  }

  function Sliced(p: Prims, vs: seq<Value>, args: seq<Value>): seq<Value> {
    var s := if |args| > 0 then p.toInt(args[0]) else None;
    var e := if |args| > 1 then p.toInt(args[1]) else None;
    var start := if s.Some? && s.value > 0 then s.value else 0;
    var end := if e.Some? && e.value < |vs| then e.value else |vs|;
    if start >= end then [] else vs[start..end]
  }

  const ARRAY_FILTERS := {"first", "last", "sort", "reverse", "flatten", "slice", "unique", "concat"}

  /** The filters that move the values of an array about. */
  function ArrayFilter(p: Prims, name: string, vs: seq<Value>, args: seq<Value>): Value {
    match name
    case "first" => if vs == [] then Null else vs[0]
    case "last" => if vs == [] then Null else vs[|vs| - 1]
    case "sort" => Array(p.sorted(vs))
    case "reverse" => Array(Reversed(vs))
    case "flatten" => Array(Flattened(vs))
    case "slice" => Array(Sliced(p, vs, args))
    case "unique" => Array(Unique(p, vs, {}))
    case _ => Array(vs + Concatenated(args))
  }

  function FieldsAt(vs: seq<Value>, field: string): seq<Value> {
    if vs == [] then [] else [FieldAccess(vs[0], field)] + FieldsAt(vs[1..], field)
  }

  function ValuesAt(m: map<string, Value>, keys: seq<string>): seq<Value> {
    if keys == [] then [] else [FieldAccess(Object(m), keys[0])] + ValuesAt(m, keys[1..])
  }

  /** What a filter does that evaluates nothing; None for `map` and `filter` with a lambda on an array. */
  function DataFilter(p: Prims, val: Value, name: string, args: seq<Value>): (r: Outcome)
    ensures r.None? ==> val.Array? && args != [] && args[0].Lambda?
  {
    if name == "map" || name == "filter" then
      if !val.Array? then Some(Ok(Null))
      else if args != [] && args[0].Lambda? then None
      else if name == "map" && args != [] && args[0].Str? then Some(Ok(Array(FieldsAt(val.items, args[0].s))))
      else Some(Ok(val))
    else if name == "default" then Some(Ok(if val != Null then val else if args != [] then args[0] else Null))
    else if name == "values" then Some(Ok(if val.Object? then Array(ValuesAt(val.fields, p.keyOrder(val.fields))) else Null))
    else if name in PLAIN_FILTERS then Some(p.plain(name, val, args))
    else if name in ARRAY_FILTERS then Some(Ok(if val.Array? then ArrayFilter(p, name, val.items, args) else Null))
    else Some(Err)
  }

  // ---------- Evaluation ----------

  function Bound(ctx: Context, param: string, v: Value): Context {
    ctx.(vars := ctx.vars[param := v])
  }

  function Eval(p: Prims, fuel: nat, e: Expr, ctx: Context): Outcome
    decreases fuel, 2, e, 1
  {
    match e
    case Lit(l) => Some(Ok(LiteralValue(l)))
    case Name(n) => Some(Ok(Lookup(ctx, n)))
    case LambdaExpr(param, body) => Some(Ok(Lambda(param, body)))
    case DotExpr(o, field) => (
      match Eval(p, fuel, o, ctx)
      case Some(Ok(v)) => Some(Ok(FieldAccess(v, field)))
      case r => r)
    case OptionalChainExpr(o, field) => (
      match Eval(p, fuel, o, ctx)
      case Some(Ok(v)) => Some(Ok(FieldAccess(v, field)))
      case r => r)
    case IndexExpr(o, index) => (
      match Eval(p, fuel, o, ctx)
      case Some(Ok(v)) => (
        match Eval(p, fuel, index, ctx)
        case Some(Ok(i)) => Some(Ok(ItemAt(p, v, i)))
        case r => r)
      case r => r)
    case UnaryExpr(o) => (
      match Eval(p, fuel, o, ctx)
      case Some(Ok(v)) => Some(Ok(Bool(!IsTruthy(p, v))))
      case r => r)
    case BinaryExpr(_, _, _) => EvalBinary(p, fuel, e, ctx)
    case NullCoalesceExpr(l, r) => (
      match Eval(p, fuel, l, ctx)
      case Some(Ok(v)) => if v != Null then Some(Ok(v)) else Eval(p, fuel, r, ctx)
      case out => out)
    case TernaryExpr(c, t, f) => (
      match Eval(p, fuel, c, ctx)
      case Some(Ok(v)) => if IsTruthy(p, v) then Eval(p, fuel, t, ctx) else Eval(p, fuel, f, ctx)
      case out => out)
    case PipeExpr(v, filter, args) => (
      match Eval(p, fuel, v, ctx)
      case Some(Ok(val)) => EvalFilter(p, fuel, val, filter, args, ctx)
      case out => out)
    case CallExpr(f, args) =>
      if f.Name? && args != [] then EvalFilter(p, fuel, Null, f.name, args, ctx) else Some(Ok(Null))
    case ArrayExpr(es) => (
      match EvalAll(p, fuel, es, ctx)
      case None => None
      case Some(None) => Some(Err)
      case Some(Some(vs)) => Some(Ok(Array(vs))))
    case ObjectExpr(ks, vs) =>
      match EvalAll(p, fuel, vs, ctx)
      case None => None
      case Some(None) => Some(Err)
      case Some(Some(values)) => Some(Ok(Object(Zip(ks, values))))
  }

  /** Operators; `&&` and `||` evaluate their right side only when the left does not decide. */
  function EvalBinary(p: Prims, fuel: nat, e: Expr, ctx: Context): Outcome
    requires e.BinaryExpr?
    decreases fuel, 2, e, 0
  {
    match Eval(p, fuel, e.left, ctx)
    case Some(Ok(l)) =>
      if e.op == "&&" then (if IsTruthy(p, l) then Eval(p, fuel, e.right, ctx) else Some(Ok(l)))
      else if e.op == "||" then (if IsTruthy(p, l) then Some(Ok(l)) else Eval(p, fuel, e.right, ctx))
      else (
        match Eval(p, fuel, e.right, ctx)
        case Some(Ok(r)) => Some(if e.op in OPERATORS then Ok(p.binary(e.op, l, r)) else Err)
        case out => out)
    case out => out
  }

  /** Later keys win. */
  function Zip(ks: seq<string>, vs: seq<Value>): map<string, Value> {
    if ks == [] || vs == [] then map[]
    else
      var later := Zip(ks[1..], vs[1..]);
      if ks[0] in later then later else later[ks[0] := vs[0]]
  }

  /** All of them in order; Some(None) when one fails. */
  function EvalAll(p: Prims, fuel: nat, es: seq<Expr>, ctx: Context): Option<Option<seq<Value>>>
    decreases fuel, 2, es, 2
  {
    if es == [] then Some(Some([]))
    else match Eval(p, fuel, es[0], ctx)
      case None => None
      case Some(Err) => Some(None)
      case Some(Ok(v)) =>
        match EvalAll(p, fuel, es[1..], ctx)
        case Some(Some(vs)) => Some(Some([v] + vs))
        case r => r
  }

  /** A filter on a value: its arguments first, then what it does. */
  function EvalFilter(p: Prims, fuel: nat, val: Value, name: string, argExprs: seq<Expr>, ctx: Context): Outcome
    decreases fuel, 2, argExprs, 3
  {
    match EvalAll(p, fuel, argExprs, ctx)
    case None => None
    case Some(None) => Some(Err)
    case Some(Some(args)) =>
      if DataFilter(p, val, name, args).Some? then DataFilter(p, val, name, args)
      else if name == "map" then MapAll(p, fuel, args[0], val.items, ctx)
      else FilterAll(p, fuel, args[0], val.items, ctx)
  }

  /** A lambda applied to one item: its body, in the filter's context with the parameter bound. */
  function Apply(p: Prims, fuel: nat, lambda: Value, item: Value, ctx: Context): Outcome
    requires lambda.Lambda?
    decreases fuel, 0
  {
    if fuel == 0 then None else Eval(p, fuel - 1, lambda.body, Bound(ctx, lambda.param, item))
  }

  function MapAll(p: Prims, fuel: nat, lambda: Value, items: seq<Value>, ctx: Context): Outcome
    requires lambda.Lambda?
    decreases fuel, 1, items
  {
    if items == [] then Some(Ok(Array([])))
    else match Apply(p, fuel, lambda, items[0], ctx)
      case Some(Ok(v)) => (
        match MapAll(p, fuel, lambda, items[1..], ctx)
        case Some(Ok(Array(vs))) => Some(Ok(Array([v] + vs)))
        case r => r)
      case r => r
  }

  function FilterAll(p: Prims, fuel: nat, lambda: Value, items: seq<Value>, ctx: Context): Outcome
    requires lambda.Lambda?
    decreases fuel, 1, items
  {
    if items == [] then Some(Ok(Array([])))
    else match Apply(p, fuel, lambda, items[0], ctx)
      case Some(Ok(v)) => (
        match FilterAll(p, fuel, lambda, items[1..], ctx)
        case Some(Ok(Array(vs))) => Some(Ok(Array((if IsTruthy(p, v) then [items[0]] else []) + vs)))
        case r => r)
      case r => r
  }
}
