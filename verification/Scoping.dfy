/** Scopes of lambdas: clones of the bindings, and which bindings a result depends on. */
module Scoping {
  import opened Options
  import opened Syntax
  import opened Evaluation
  import opened Totality

  // Filters bind a lambda's parameter in a copy of the bindings, so the caller's stay as they were, and a first-order
  // expression's result depends only on the names that occur free in it.

  // ---------- The loops of map and filter ----------

  class Bindings {
    const input: Value
    const state: Value
    const meta: Value
    var vars: map<string, Value>

    constructor (input: Value, state: Value, meta: Value, vars: map<string, Value>)
      ensures Scope() == Context(input, state, meta, vars)
    {
      this.input, this.state, this.meta, this.vars := input, state, meta, vars;
    }

    function Scope(): Context
      reads this
    {
      Context(input, state, meta, vars)
    }

    method Clone() returns (nc: Bindings)
      ensures fresh(nc) && nc.Scope() == Scope()
    {
      nc := new Bindings(input, state, meta, map[]);
      var keys := vars.Keys;
      while keys != {}
        invariant fresh(nc) && nc.input == input && nc.state == state && nc.meta == meta
        invariant keys <= vars.Keys && nc.vars.Keys == vars.Keys - keys
        invariant forall k :: k in nc.vars ==> nc.vars[k] == vars[k]
        decreases |keys|
      {
        var k :| k in keys;
        nc.vars := nc.vars[k := vars[k]];
        keys := keys - {k};
      }
    }

    /** `map` with a lambda; the bindings of the caller are not touched. */
    method FilterMap(p: Prims, fuel: nat, items: seq<Value>, lambda: Value) returns (r: Outcome)
      requires lambda.Lambda?
      ensures r == MapAll(p, fuel, lambda, items, Scope()) && unchanged(this)
    {
      hide Eval;
      var result: seq<Value> := [];
      ghost var spec := MapAll(p, fuel, lambda, items, Scope());
      MappedNothing(spec);
      assert items[0..] == items;
      for i := 0 to |items|
        invariant unchanged(this) && spec == Before(result, MapAll(p, fuel, lambda, items[i..], Scope()))
      {
        var item := items[i];
        assert items[i..][0] == item && items[i..][1..] == items[i + 1..];
        MapStep(p, fuel, lambda, items[i..], Scope(), result);
        if fuel == 0 {
          return None;
        }
        var nc := Clone();
        nc.vars := nc.vars[lambda.param := item];
        assert nc.Scope() == Bound(Scope(), lambda.param, item);
        var v := Eval(p, fuel - 1, lambda.body, nc.Scope());
        if v.None? || v.value.Err? {
          return v;
        }
        result := result + [v.value.value];
      }
      assert items[|items|..] == [] && result + [] == result;
      return Some(Ok(Array(result)));
    }

    /** `filter` with a lambda. */
    method FilterFilter(p: Prims, fuel: nat, items: seq<Value>, lambda: Value) returns (r: Outcome)
      requires lambda.Lambda?
      ensures r == FilterAll(p, fuel, lambda, items, Scope()) && unchanged(this)
    {
      hide Eval;
      var result: seq<Value> := [];
      ghost var spec := FilterAll(p, fuel, lambda, items, Scope());
      MappedNothing(spec);
      assert items[0..] == items;
      for i := 0 to |items|
        invariant unchanged(this) && spec == Before(result, FilterAll(p, fuel, lambda, items[i..], Scope()))
      {
        var item := items[i];
        assert items[i..][0] == item && items[i..][1..] == items[i + 1..];
        FilterStep(p, fuel, lambda, items[i..], Scope(), result);
        if fuel == 0 {
          return None;
        }
        var nc := Clone();
        nc.vars := nc.vars[lambda.param := item];
        assert nc.Scope() == Bound(Scope(), lambda.param, item);
        var v := Eval(p, fuel - 1, lambda.body, nc.Scope());
        if v.None? || v.value.Err? {
          return v;
        }
        if IsTruthy(p, v.value.value) {
          result := result + [item];
        }
      }
      assert items[|items|..] == [] && result + [] == result;
      return Some(Ok(Array(result)));
    }
  }

  /** Items collected before the rest of a result. */
  function Before(vs: seq<Value>, r: Outcome): Outcome {
    match r
    case Some(Ok(Array(more))) => Some(Ok(Array(vs + more)))
    case _ => r
  }

  lemma MappedNothing(r: Outcome)
    ensures Before([], r) == r
  {
    if r.Some? && r.value.Ok? && r.value.value.Array? {
      assert [] + r.value.value.items == r.value.value.items;
    }
  }

  lemma BeforeMore(a: seq<Value>, b: seq<Value>, r: Outcome)
    ensures Before(a, Before(b, r)) == Before(a + b, r)
  {
    if r.Some? && r.value.Ok? && r.value.value.Array? {
      assert a + (b + r.value.value.items) == a + b + r.value.value.items;
    }
  }

  lemma MapStep(p: Prims, fuel: nat, lambda: Value, items: seq<Value>, ctx: Context, result: seq<Value>)
    requires lambda.Lambda? && items != []
    ensures var r := Apply(p, fuel, lambda, items[0], ctx);
            Before(result, MapAll(p, fuel, lambda, items, ctx)) ==
            if r.Some? && r.value.Ok? then Before(result + [r.value.value], MapAll(p, fuel, lambda, items[1..], ctx)) else r
  {
    hide Apply;
    var r := Apply(p, fuel, lambda, items[0], ctx);
    MapIsArray(p, fuel, lambda, items[1..], ctx);
    if r.Some? && r.value.Ok? {
      BeforeMore(result, [r.value.value], MapAll(p, fuel, lambda, items[1..], ctx));
    }
  }

  lemma {:induction false} MapIsArray(p: Prims, fuel: nat, lambda: Value, items: seq<Value>, ctx: Context)
    requires lambda.Lambda?
    ensures var r := MapAll(p, fuel, lambda, items, ctx); r.Some? && r.value.Ok? ==> r.value.value.Array?
    decreases |items|
  {
    hide Apply;
    if items != [] {
      MapIsArray(p, fuel, lambda, items[1..], ctx);
    }
  }

  lemma FilterStep(p: Prims, fuel: nat, lambda: Value, items: seq<Value>, ctx: Context, result: seq<Value>)
    requires lambda.Lambda? && items != []
    ensures var r := Apply(p, fuel, lambda, items[0], ctx);
            Before(result, FilterAll(p, fuel, lambda, items, ctx)) ==
            if r.Some? && r.value.Ok? then
              Before(if IsTruthy(p, r.value.value) then result + [items[0]] else result, FilterAll(p, fuel, lambda, items[1..], ctx))
            else r
  {
    hide Apply;
    var r := Apply(p, fuel, lambda, items[0], ctx);
    FilterIsArray(p, fuel, lambda, items[1..], ctx);
    if r.Some? && r.value.Ok? {
      var kept := if IsTruthy(p, r.value.value) then [items[0]] else [];
      BeforeMore(result, kept, FilterAll(p, fuel, lambda, items[1..], ctx));
      assert result + [] == result;
    }
  }

  lemma {:induction false} FilterIsArray(p: Prims, fuel: nat, lambda: Value, items: seq<Value>, ctx: Context)
    requires lambda.Lambda?
    ensures var r := FilterAll(p, fuel, lambda, items, ctx); r.Some? && r.value.Ok? ==> r.value.value.Array?
    decreases |items|
  {
    hide Apply;
    if items != [] {
      FilterIsArray(p, fuel, lambda, items[1..], ctx);
    }
  }

  // ---------- Free names ----------

  /** The names an evaluation may look up. */
  function Free(e: Expr): set<string>
    decreases e, 0
  {
    match e
    case Lit(_) => {}
    case Name(n) => {n}
    case LambdaExpr(param, body) => Free(body) - {param}
    case DotExpr(o, _) => Free(o)
    case OptionalChainExpr(o, _) => Free(o)
    case IndexExpr(o, i) => Free(o) + Free(i)
    case UnaryExpr(o) => Free(o)
    case BinaryExpr(_, l, r) => Free(l) + Free(r)
    case NullCoalesceExpr(l, r) => Free(l) + Free(r)
    case TernaryExpr(c, t, f) => Free(c) + Free(t) + Free(f)
    case PipeExpr(v, _, args) => Free(v) + FreeAll(args)
    case CallExpr(_, args) => FreeAll(args)
    case ArrayExpr(es) => FreeAll(es)
    case ObjectExpr(_, vs) => FreeAll(vs)
  }

  function FreeAll(es: seq<Expr>): set<string>
    decreases es, 1
  {
    if es == [] then {} else Free(es[0]) + FreeAll(es[1..])
  }

  predicate Agree(a: Context, b: Context, names: set<string>) {
    forall n :: n in names ==> Lookup(a, n) == Lookup(b, n)
  }

  lemma BoundAgree(a: Context, b: Context, param: string, v: Value, names: set<string>)
    requires Agree(a, b, names - {param})
    ensures Agree(Bound(a, param, v), Bound(b, param, v), names)
  {
    forall n | n in names ensures Lookup(Bound(a, param, v), n) == Lookup(Bound(b, param, v), n) {
      if n != param {
        assert Lookup(a, n) == Lookup(b, n);
      }
    }
  }

  /** The result of a first-order expression depends only on its free names. */
  lemma {:induction false} OnlyFreeNamesMatter(p: Prims, fuel: nat, e: Expr, a: Context, b: Context)
    requires Sound(p) && CleanContext(a) && CleanContext(b) && FirstOrder(e) && Depth(e) <= fuel && Agree(a, b, Free(e))
    ensures Eval(p, fuel, e, a) == Eval(p, fuel, e, b)
    decreases fuel, 2, e, 1
  {
    hide Sound, CleanContext, EvalFilter;
    match e
    case Lit(_) =>
    case Name(_) =>
    case DotExpr(o, _) => OnlyFreeNamesMatter(p, fuel, o, a, b);
    case OptionalChainExpr(o, _) => OnlyFreeNamesMatter(p, fuel, o, a, b);
    case UnaryExpr(o) => OnlyFreeNamesMatter(p, fuel, o, a, b);
    case IndexExpr(o, i) =>
      OnlyFreeNamesMatter(p, fuel, o, a, b);
      OnlyFreeNamesMatter(p, fuel, i, a, b);
    case BinaryExpr(_, l, r) =>
      OnlyFreeNamesMatter(p, fuel, l, a, b);
      OnlyFreeNamesMatter(p, fuel, r, a, b);
    case NullCoalesceExpr(l, r) =>
      OnlyFreeNamesMatter(p, fuel, l, a, b);
      OnlyFreeNamesMatter(p, fuel, r, a, b);
    case TernaryExpr(c, t, f) =>
      OnlyFreeNamesMatter(p, fuel, c, a, b);
      OnlyFreeNamesMatter(p, fuel, t, a, b);
      OnlyFreeNamesMatter(p, fuel, f, a, b);
    case PipeExpr(v, filter, args) =>
      OnlyFreeNamesMatter(p, fuel, v, a, b);
      FirstOrderTotal(p, fuel, v, a);
      var val := Eval(p, fuel, v, a).value;
      if val.Ok? {
        FilterFreeNames(p, fuel, val.value, filter, args, a, b);
      }
    case CallExpr(f, args) =>
      if f.Name? {
        FilterFreeNames(p, fuel, Null, f.name, args, a, b);
      }
    case ArrayExpr(es) => ArgsFreeNames(p, fuel, es, false, a, b);
    case ObjectExpr(_, vs) => ArgsFreeNames(p, fuel, vs, false, a, b);
  }

  lemma {:induction false} ArgsFreeNames(p: Prims, fuel: nat, es: seq<Expr>, lambdas: bool, a: Context, b: Context)
    requires Sound(p) && CleanContext(a) && CleanContext(b) && FirstOrderArgs(es, lambdas) && DepthAll(es) <= fuel
    requires Agree(a, b, FreeAll(es))
    ensures EvalAll(p, fuel, es, a) == EvalAll(p, fuel, es, b)
    decreases fuel, 2, es, 2
  {
    hide Sound, CleanContext;
    if es != [] {
      if !es[0].LambdaExpr? {
        OnlyFreeNamesMatter(p, fuel, es[0], a, b);
      }
      ArgsFreeNames(p, fuel, es[1..], lambdas, a, b);
    }
  }

  /** A lambda among the values of first-order arguments stood there as such. */
  lemma FirstArgLambda(p: Prims, fuel: nat, es: seq<Expr>, lambdas: bool, a: Context)
    requires Sound(p) && CleanContext(a) && FirstOrderArgs(es, lambdas) && DepthAll(es) <= fuel
    requires EvalAll(p, fuel, es, a).Some? && EvalAll(p, fuel, es, a).value.Some?
    ensures var vs := EvalAll(p, fuel, es, a).value.value;
            vs != [] && vs[0].Lambda? ==> es != [] && es[0] == LambdaExpr(vs[0].param, vs[0].body)
                                          && FirstOrder(vs[0].body) && Depth(vs[0].body) < fuel
                                          && Free(vs[0].body) - {vs[0].param} <= FreeAll(es)
  {
    hide Sound, CleanContext;
    if es != [] && !es[0].LambdaExpr? {
      FirstOrderTotal(p, fuel, es[0], a);
    }
  }

  lemma {:induction false} FilterFreeNames(p: Prims, fuel: nat, val: Value, name: string, args: seq<Expr>, a: Context, b: Context)
    requires Sound(p) && CleanContext(a) && CleanContext(b) && LambdaFree(val)
    requires FirstOrderArgs(args, TakesLambda(name)) && DepthAll(args) <= fuel && Agree(a, b, FreeAll(args))
    ensures EvalFilter(p, fuel, val, name, args, a) == EvalFilter(p, fuel, val, name, args, b)
    decreases fuel, 2, args, 3
  {
    hide Sound, CleanContext, DataFilter, MapAll, FilterAll, EvalAll;
    ArgsFreeNames(p, fuel, args, TakesLambda(name), a, b);
    ArgsTotal(p, fuel, args, TakesLambda(name), a);
    var vs := EvalAll(p, fuel, args, a).value;
    if vs.Some? {
      FirstArgLambda(p, fuel, args, TakesLambda(name), a);
      DataFilterFree(p, val, name, vs.value, fuel);
      if DataFilter(p, val, name, vs.value).None? {
        var l := vs.value[0];
        assert Agree(a, b, Free(l.body) - {l.param});
        LoopFreeNames(p, fuel, l, val.items, a, b);
      }
    }
  }

  lemma {:induction false} LoopFreeNames(p: Prims, fuel: nat, l: Value, items: seq<Value>, a: Context, b: Context)
    requires Sound(p) && CleanContext(a) && CleanContext(b) && AllFree(items)
    requires l.Lambda? && FirstOrder(l.body) && Depth(l.body) < fuel && Agree(a, b, Free(l.body) - {l.param})
    ensures MapAll(p, fuel, l, items, a) == MapAll(p, fuel, l, items, b)
    ensures FilterAll(p, fuel, l, items, a) == FilterAll(p, fuel, l, items, b)
    decreases fuel, 1, items
  {
    hide Sound, CleanContext;
    if items != [] {
      var item := items[0];
      BoundClean(a, l.param, item);
      BoundClean(b, l.param, item);
      BoundAgree(a, b, l.param, item, Free(l.body));
      OnlyFreeNamesMatter(p, fuel - 1, l.body, Bound(a, l.param, item), Bound(b, l.param, item));
      LoopFreeNames(p, fuel, l, items[1..], a, b);
    }
  }
}
