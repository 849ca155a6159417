/** First-order expressions: their evaluation always ends, whatever they are applied to. */
module Totality {
  import opened Options
  import opened Syntax
  import opened Evaluation
  import Parsing
  import Printing
  import RoundTrip

  // Lambdas stand only as direct arguments of `map` and `filter`. Then evaluation ends, no value it yields contains a
  // lambda, and its result does not depend on fuel. Without the restriction a lambda can be applied to itself.

  // ---------- Expressions and values without stray lambdas ----------

  predicate TakesLambda(filter: string) {
    filter == "map" || filter == "filter"
  }

  predicate FirstOrder(e: Expr)
    decreases e, 0
  {
    match e
    case Lit(_) => true
    case Name(_) => true
    case LambdaExpr(_, _) => false
    case DotExpr(o, _) => FirstOrder(o)
    case OptionalChainExpr(o, _) => FirstOrder(o)
    case IndexExpr(o, i) => FirstOrder(o) && FirstOrder(i)
    case UnaryExpr(o) => FirstOrder(o)
    case BinaryExpr(_, l, r) => FirstOrder(l) && FirstOrder(r)
    case NullCoalesceExpr(l, r) => FirstOrder(l) && FirstOrder(r)
    case TernaryExpr(c, t, f) => FirstOrder(c) && FirstOrder(t) && FirstOrder(f)
    case PipeExpr(v, filter, args) => FirstOrder(v) && FirstOrderArgs(args, TakesLambda(filter))
    case CallExpr(f, args) => f.Name? ==> FirstOrderArgs(args, TakesLambda(f.name))
    case ArrayExpr(es) => FirstOrderArgs(es, false)
    case ObjectExpr(_, vs) => FirstOrderArgs(vs, false)
  }

  predicate FirstOrderArgs(es: seq<Expr>, lambdas: bool)
    decreases es, 1
  {
    es == [] ||
    (&& (if es[0].LambdaExpr? then lambdas && FirstOrder(es[0].body) else FirstOrder(es[0]))
     && FirstOrderArgs(es[1..], lambdas))
  }

  /** How deep lambda applications can nest. */
  function Depth(e: Expr): nat
    decreases e, 0
  {
    match e
    case Lit(_) => 0
    case Name(_) => 0
    case LambdaExpr(_, body) => 1 + Depth(body)
    case DotExpr(o, _) => Depth(o)
    case OptionalChainExpr(o, _) => Depth(o)
    case IndexExpr(o, i) => Max(Depth(o), Depth(i))
    case UnaryExpr(o) => Depth(o)
    case BinaryExpr(_, l, r) => Max(Depth(l), Depth(r))
    case NullCoalesceExpr(l, r) => Max(Depth(l), Depth(r))
    case TernaryExpr(c, t, f) => Max(Depth(c), Max(Depth(t), Depth(f)))
    case PipeExpr(v, _, args) => Max(Depth(v), DepthAll(args))
    case CallExpr(_, args) => DepthAll(args)
    case ArrayExpr(es) => DepthAll(es)
    case ObjectExpr(_, vs) => DepthAll(vs)
  }

  function DepthAll(es: seq<Expr>): nat
    decreases es, 1
  {
    if es == [] then 0 else Max(Depth(es[0]), DepthAll(es[1..]))
  }

  function Max(a: nat, b: nat): nat {
    if a < b then b else a
  }

  /** No lambda anywhere inside. */
  predicate LambdaFree(v: Value) {
    match v
    case Lambda(_, _) => false
    case Array(items) => forall i :: 0 <= i < |items| ==> LambdaFree(items[i])
    case Object(fields) => forall k :: k in fields ==> LambdaFree(fields[k])
    case _ => true
  }

  predicate AllFree(vs: seq<Value>) {
    forall i :: 0 <= i < |vs| ==> LambdaFree(vs[i])
  }

  predicate CleanContext(ctx: Context) {
    && LambdaFree(ctx.input) && LambdaFree(ctx.state) && LambdaFree(ctx.meta)
    && forall x :: x in ctx.vars ==> LambdaFree(ctx.vars[x])
  }

  /** What is left open makes no lambdas out of values that hold none, and sorting only rearranges. */
  ghost predicate Sound(p: Prims) {
    && (forall op, a, b :: LambdaFree(p.binary(op, a, b)))
    && (forall name, v, args :: p.plain(name, v, args).Ok? ==> LambdaFree(p.plain(name, v, args).value))
    && (forall vs :: multiset(p.sorted(vs)) == multiset(vs))
  }

  // ---------- Values move without lambdas ----------

  lemma AllFreeJoin(a: seq<Value>, b: seq<Value>)
    requires AllFree(a) && AllFree(b)
    ensures AllFree(a + b)
  {
  }

  lemma FieldFree(v: Value, field: string)
    requires LambdaFree(v)
    ensures LambdaFree(FieldAccess(v, field))
  {
  }

  lemma {:induction false} FieldsFree(vs: seq<Value>, field: string)
    requires AllFree(vs)
    ensures AllFree(FieldsAt(vs, field))
  {
    if vs != [] {
      FieldFree(vs[0], field);
      FieldsFree(vs[1..], field);
    }
  }

  lemma {:induction false} ValuesFree(m: map<string, Value>, keys: seq<string>)
    requires LambdaFree(Object(m))
    ensures AllFree(ValuesAt(m, keys))
  {
    if keys != [] {
      FieldFree(Object(m), keys[0]);
      ValuesFree(m, keys[1..]);
    }
  }

  lemma {:induction false} ReversedFree(vs: seq<Value>)
    requires AllFree(vs)
    ensures AllFree(Reversed(vs))
  {
    if vs != [] {
      ReversedFree(vs[1..]);
      AllFreeJoin(Reversed(vs[1..]), [vs[0]]);
    }
  }

  lemma {:induction false} FlattenedFree(vs: seq<Value>)
    requires AllFree(vs)
    ensures AllFree(Flattened(vs))
  {
    if vs != [] {
      FlattenedFree(vs[1..]);
      AllFreeJoin(if vs[0].Array? then vs[0].items else [vs[0]], Flattened(vs[1..]));
    }
  }

  lemma {:induction false} UniqueFree(p: Prims, vs: seq<Value>, seen: set<string>)
    requires AllFree(vs)
    ensures AllFree(Unique(p, vs, seen))
  {
    if vs != [] {
      UniqueFree(p, vs[1..], seen);
      UniqueFree(p, vs[1..], seen + {p.key(vs[0])});
    }
  }

  lemma {:induction false} ConcatenatedFree(args: seq<Value>)
    requires AllFree(args)
    ensures AllFree(Concatenated(args))
  {
    if args != [] {
      ConcatenatedFree(args[1..]);
      AllFreeJoin(if args[0].Array? then args[0].items else [], Concatenated(args[1..]));
    }
  }

  lemma SlicedFree(p: Prims, vs: seq<Value>, args: seq<Value>)
    requires AllFree(vs)
    ensures AllFree(Sliced(p, vs, args))
  {
  }

  lemma ArrayFilterFree(p: Prims, name: string, vs: seq<Value>, args: seq<Value>)
    requires Sound(p) && AllFree(vs) && AllFree(args)
    ensures LambdaFree(ArrayFilter(p, name, vs, args))
  {
    ReversedFree(vs);
    FlattenedFree(vs);
    SlicedFree(p, vs, args);
    UniqueFree(p, vs, {});
    ConcatenatedFree(args);
    AllFreeJoin(vs, Concatenated(args));
    SortedFree(p, vs);
  }

  lemma SortedFree(p: Prims, vs: seq<Value>)
    requires Sound(p) && AllFree(vs)
    ensures AllFree(p.sorted(vs))
  {
    var sorted := p.sorted(vs);
    forall i | 0 <= i < |sorted| ensures LambdaFree(sorted[i]) {
      assert sorted[i] in multiset(vs);
      var k :| 0 <= k < |vs| && vs[k] == sorted[i];
    }
  }

  // ---------- Evaluation ends ----------

  /** A result, and no lambda in it. */
  predicate Good(out: Outcome) {
    out.Some? && (out.value.Ok? ==> LambdaFree(out.value.value))
  }

  /** An argument: lambda-free, or a first-order lambda where one may stand. */
  predicate GoodArg(v: Value, lambdas: bool, fuel: nat) {
    LambdaFree(v) || (lambdas && v.Lambda? && FirstOrder(v.body) && Depth(v.body) < fuel)
  }

  predicate GoodArgs(vs: seq<Value>, lambdas: bool, fuel: nat) {
    forall i :: 0 <= i < |vs| ==> GoodArg(vs[i], lambdas, fuel)
  }

  lemma LookupFree(ctx: Context, name: string)
    requires CleanContext(ctx)
    ensures LambdaFree(Lookup(ctx, name))
  {
  }

  lemma BoundClean(ctx: Context, param: string, v: Value)
    requires CleanContext(ctx) && LambdaFree(v)
    ensures CleanContext(Bound(ctx, param, v))
  {
  }

  lemma ItemFree(p: Prims, v: Value, index: Value)
    requires LambdaFree(v)
    ensures LambdaFree(ItemAt(p, v, index))
  {
  }

  lemma {:induction false} ZipFree(ks: seq<string>, vs: seq<Value>)
    requires AllFree(vs)
    ensures LambdaFree(Object(Zip(ks, vs)))
  {
    if ks != [] && vs != [] {
      ZipFree(ks[1..], vs[1..]);
    }
  }

  lemma DataFilterFree(p: Prims, val: Value, name: string, args: seq<Value>, fuel: nat)
    requires Sound(p) && LambdaFree(val) && GoodArgs(args, TakesLambda(name), fuel)
    ensures DataFilter(p, val, name, args).Some? ==> Good(DataFilter(p, val, name, args))
    ensures DataFilter(p, val, name, args).None? ==> args[0].Lambda? && GoodArg(args[0], true, fuel) && AllFree(val.items)
  {
    if TakesLambda(name) {
      if val.Array? && args != [] && args[0].Str? {
        FieldsFree(val.items, args[0].s);
      }
    } else {
      assert AllFree(args);
      if val.Object? {
        ValuesFree(val.fields, p.keyOrder(val.fields));
      }
      if val.Array? {
        ArrayFilterFree(p, name, val.items, args);
      }
    }
  }

  /** First-order evaluation ends, and yields no lambda. */
  lemma {:induction false} FirstOrderTotal(p: Prims, fuel: nat, e: Expr, ctx: Context)
    requires Sound(p) && CleanContext(ctx) && FirstOrder(e) && Depth(e) <= fuel
    ensures Good(Eval(p, fuel, e, ctx))
    decreases fuel, 2, e, 1
  {
    hide Sound, CleanContext, LambdaFree;
    match e
    case Lit(l) => LiteralFree(l);
    case Name(n) => LookupFree(ctx, n);
    case DotExpr(o, field) => AccessTotal(p, fuel, e, o, field, ctx);
    case OptionalChainExpr(o, field) => AccessTotal(p, fuel, e, o, field, ctx);
    case IndexExpr(o, index) =>
      FirstOrderTotal(p, fuel, o, ctx);
      FirstOrderTotal(p, fuel, index, ctx);
      var v, i := Eval(p, fuel, o, ctx).value, Eval(p, fuel, index, ctx).value;
      if v.Ok? && i.Ok? {
        ItemFree(p, v.value, i.value);
      }
    case UnaryExpr(o) =>
      FirstOrderTotal(p, fuel, o, ctx);
      BoolFree();
    case BinaryExpr(_, _, _) => BinaryTotal(p, fuel, e, ctx);
    case NullCoalesceExpr(l, r) =>
      FirstOrderTotal(p, fuel, l, ctx);
      FirstOrderTotal(p, fuel, r, ctx);
    case TernaryExpr(c, t, f) =>
      FirstOrderTotal(p, fuel, c, ctx);
      FirstOrderTotal(p, fuel, t, ctx);
      FirstOrderTotal(p, fuel, f, ctx);
    case PipeExpr(v, filter, args) =>
      FirstOrderTotal(p, fuel, v, ctx);
      var val := Eval(p, fuel, v, ctx).value;
      if val.Ok? {
        FilterTotal(p, fuel, val.value, filter, args, ctx);
      }
    case CallExpr(f, args) =>
      NullFree();
      if f.Name? {
        FilterTotal(p, fuel, Null, f.name, args, ctx);
      }
    case ArrayExpr(es) =>
      ArgsTotal(p, fuel, es, false, ctx);
      ContainersFree(p, fuel, [], es, ctx);
    case ObjectExpr(ks, vs) =>
      ArgsTotal(p, fuel, vs, false, ctx);
      ContainersFree(p, fuel, ks, vs, ctx);
  }

  lemma LiteralFree(l: Literal)
    ensures LambdaFree(LiteralValue(l))
  {
  }

  lemma BoolFree()
    ensures LambdaFree(Bool(true)) && LambdaFree(Bool(false))
  {
  }

  lemma NullFree()
    ensures LambdaFree(Null)
  {
  }

  lemma ContainersFree(p: Prims, fuel: nat, ks: seq<string>, es: seq<Expr>, ctx: Context)
    requires var r := EvalAll(p, fuel, es, ctx); r.Some? && (r.value.Some? ==> GoodArgs(r.value.value, false, fuel))
    ensures var r := EvalAll(p, fuel, es, ctx).value;
            r.Some? ==> LambdaFree(Array(r.value)) && LambdaFree(Object(Zip(ks, r.value)))
  {
    hide EvalAll;
    var r := EvalAll(p, fuel, es, ctx).value;
    if r.Some? {
      assert AllFree(r.value);
      ZipFree(ks, r.value);
    }
  }

  lemma {:induction false} AccessTotal(p: Prims, fuel: nat, e: Expr, o: Expr, field: string, ctx: Context)
    requires Sound(p) && CleanContext(ctx) && FirstOrder(o) && Depth(o) <= fuel
    requires e == DotExpr(o, field) || e == OptionalChainExpr(o, field)
    ensures Good(Eval(p, fuel, e, ctx))
    decreases fuel, 2, e, 0
  {
    hide Sound, CleanContext, LambdaFree;
    FirstOrderTotal(p, fuel, o, ctx);
    var v := Eval(p, fuel, o, ctx).value;
    if v.Ok? {
      FieldFree(v.value, field);
    }
  }

  lemma {:induction false} BinaryTotal(p: Prims, fuel: nat, e: Expr, ctx: Context)
    requires Sound(p) && CleanContext(ctx) && e.BinaryExpr? && FirstOrder(e) && Depth(e) <= fuel
    ensures Good(EvalBinary(p, fuel, e, ctx))
    decreases fuel, 2, e, 0
  {
    hide CleanContext, LambdaFree;
    FirstOrderTotal(p, fuel, e.left, ctx);
    FirstOrderTotal(p, fuel, e.right, ctx);
  }

  lemma {:induction false} ArgsTotal(p: Prims, fuel: nat, es: seq<Expr>, lambdas: bool, ctx: Context)
    requires Sound(p) && CleanContext(ctx) && FirstOrderArgs(es, lambdas) && DepthAll(es) <= fuel
    ensures var r := EvalAll(p, fuel, es, ctx); r.Some? && (r.value.Some? ==> GoodArgs(r.value.value, lambdas, fuel))
    decreases fuel, 2, es, 2
  {
    hide Sound, CleanContext, LambdaFree;
    if es != [] {
      if !es[0].LambdaExpr? {
        FirstOrderTotal(p, fuel, es[0], ctx);
      }
      ArgsTotal(p, fuel, es[1..], lambdas, ctx);
    }
  }

  lemma {:induction false} FilterTotal(p: Prims, fuel: nat, val: Value, name: string, argExprs: seq<Expr>, ctx: Context)
    requires Sound(p) && CleanContext(ctx) && LambdaFree(val)
    requires FirstOrderArgs(argExprs, TakesLambda(name)) && DepthAll(argExprs) <= fuel
    ensures Good(EvalFilter(p, fuel, val, name, argExprs, ctx))
    decreases fuel, 2, argExprs, 3
  {
    hide Sound, CleanContext, LambdaFree, DataFilter;
    ArgsTotal(p, fuel, argExprs, TakesLambda(name), ctx);
    var r := EvalAll(p, fuel, argExprs, ctx).value;
    if r.Some? {
      var args := r.value;
      DataFilterFree(p, val, name, args, fuel);
      if DataFilter(p, val, name, args).None? {
        LambdaArg(args[0], fuel);
        MapTotal(p, fuel, args[0], val.items, ctx);
        KeepTotal(p, fuel, args[0], val.items, ctx);
      }
    }
  }

  lemma LambdaArg(v: Value, fuel: nat)
    requires v.Lambda? && GoodArg(v, true, fuel)
    ensures FirstOrder(v.body) && Depth(v.body) < fuel
  {
  }

  lemma {:induction false} MapTotal(p: Prims, fuel: nat, lambda: Value, items: seq<Value>, ctx: Context)
    requires Sound(p) && CleanContext(ctx) && AllFree(items)
    requires lambda.Lambda? && FirstOrder(lambda.body) && Depth(lambda.body) < fuel
    ensures Good(MapAll(p, fuel, lambda, items, ctx))
    ensures MapAll(p, fuel, lambda, items, ctx).value.Ok? ==> MapAll(p, fuel, lambda, items, ctx).value.value.Array?
    decreases fuel, 1, items
  {
    hide Sound, CleanContext;
    if items != [] {
      BoundClean(ctx, lambda.param, items[0]);
      FirstOrderTotal(p, fuel - 1, lambda.body, Bound(ctx, lambda.param, items[0]));
      MapTotal(p, fuel, lambda, items[1..], ctx);
    }
  }

  lemma {:induction false} KeepTotal(p: Prims, fuel: nat, lambda: Value, items: seq<Value>, ctx: Context)
    requires Sound(p) && CleanContext(ctx) && AllFree(items)
    requires lambda.Lambda? && FirstOrder(lambda.body) && Depth(lambda.body) < fuel
    ensures Good(FilterAll(p, fuel, lambda, items, ctx))
    ensures FilterAll(p, fuel, lambda, items, ctx).value.Ok? ==> FilterAll(p, fuel, lambda, items, ctx).value.value.Array?
    decreases fuel, 1, items
  {
    hide Sound, CleanContext;
    if items != [] {
      BoundClean(ctx, lambda.param, items[0]);
      FirstOrderTotal(p, fuel - 1, lambda.body, Bound(ctx, lambda.param, items[0]));
      KeepTotal(p, fuel, lambda, items[1..], ctx);
    }
  }

  // ---------- Without the restriction ----------

  /** `[x] | map(x)`: the value of x is mapped by itself. */
  const SELF := PipeExpr(ArrayExpr([Name("x")]), "map", [Name("x")])

  /** `[x => [x] | map(x)] | map(x => [x] | map(x))` */
  const OMEGA := PipeExpr(ArrayExpr([LambdaExpr("x", SELF)]), "map", [LambdaExpr("x", SELF)])

  lemma {:induction false} SelfNeverEnds(p: Prims, fuel: nat, ctx: Context)
    requires Lookup(ctx, "x") == Lambda("x", SELF)
    ensures Eval(p, fuel, SELF, ctx).None?
  {
    var l := Lambda("x", SELF);
    SelfMap(p, fuel, l, ctx);
    PipeOfOne(p, fuel, Name("x"), Name("x"), l, ctx);
    if fuel > 0 {
      SelfNeverEnds(p, fuel - 1, Bound(ctx, "x", l));
    }
  }

  lemma OneElement(p: Prims, fuel: nat, e: Expr, v: Value, ctx: Context)
    requires Eval(p, fuel, e, ctx) == Some(Ok(v))
    ensures EvalAll(p, fuel, [e], ctx) == Some(Some([v]))
  {
    var es, none: seq<Value> := [e], [];
    assert es[1..] == [] && EvalAll(p, fuel, es[1..], ctx) == Some(Some(none));
    assert [v] + none == [v];
  }

  /** Mapping `[l]` by the lambda l applies l to itself. */
  lemma SelfMap(p: Prims, fuel: nat, l: Value, ctx: Context)
    requires l == Lambda("x", SELF)
    ensures MapAll(p, fuel, l, [l], ctx).None? <==>
            (fuel == 0 || Eval(p, fuel - 1, SELF, Bound(ctx, "x", l)).None?)
  {
    var items := [l];
    assert items[1..] == [] && MapAll(p, fuel, l, [], ctx) == Some(Ok(Array([])));
    assert l.param == "x" && l.body == SELF;
    var first := Apply(p, fuel, l, items[0], ctx);
    assert first == if fuel == 0 then None else Eval(p, fuel - 1, SELF, Bound(ctx, "x", l));
    assert MapAll(p, fuel, l, items, ctx).None? <==> first.None?;
  }

  /** A lambda stored in an array is applied to itself, for ever: no fuel is enough. */
  lemma StoredLambdaNeverEnds(p: Prims, fuel: nat, ctx: Context)
    ensures !FirstOrder(OMEGA) && Eval(p, fuel, OMEGA, ctx).None?
  {
    var l := Lambda("x", SELF);
    SelfMap(p, fuel, l, ctx);
    if fuel > 0 {
      SelfNeverEnds(p, fuel - 1, Bound(ctx, "x", l));
    }
    PipeOfOne(p, fuel, LambdaExpr("x", SELF), LambdaExpr("x", SELF), l, ctx);
    assert !FirstOrderArgs([LambdaExpr("x", SELF)], false);
  }

  /** Some text denotes it. */
  lemma OmegaIsWritten()
    ensures exists input :: Parsing.Meaning(input) == Some(OMEGA)
  {
    NamesAreNames();
    SelfPrintable();
    var args: seq<Expr> := [LambdaExpr("x", SELF)];
    assert Printing.Printable(args[0]) && args[1..] == [] && Printing.AllPrintable(args[1..]);
    assert Printing.AllPrintable(args);
    assert Printing.Printable(ArrayExpr(args));
    RoundTrip.DenotableIffPrintable(OMEGA);
  }

  lemma SelfPrintable()
    ensures Printing.Printable(SELF)
  {
    NamesAreNames();
    var args: seq<Expr> := [Name("x")];
    assert Printing.Printable(args[0]) && args[1..] == [] && Printing.AllPrintable(args[1..]);
    assert Printing.AllPrintable(args);
    assert Printing.Printable(ArrayExpr(args));
  }

  lemma NamesAreNames()
    ensures Printing.IsName("x") && Printing.IsName("map")
  {
  }

  /** `[a] | map(b)` where both evaluate to the lambda l. */
  lemma PipeOfOne(p: Prims, fuel: nat, a: Expr, b: Expr, l: Value, ctx: Context)
    requires l.Lambda? && Eval(p, fuel, a, ctx) == Some(Ok(l)) && Eval(p, fuel, b, ctx) == Some(Ok(l))
    ensures Eval(p, fuel, PipeExpr(ArrayExpr([a]), "map", [b]), ctx) == MapAll(p, fuel, l, [l], ctx)
  {
    hide MapAll;
    OneElement(p, fuel, a, l, ctx);
    OneElement(p, fuel, b, l, ctx);
    assert Eval(p, fuel, ArrayExpr([a]), ctx) == Some(Ok(Array([l])));
    assert DataFilter(p, Array([l]), "map", [l]).None?;
  }

  // ---------- Results do not depend on fuel ----------

  /** More fuel changes no result. */
  lemma {:induction false} FuelKept(p: Prims, fuel: nat, more: nat, e: Expr, ctx: Context)
    requires fuel <= more && Eval(p, fuel, e, ctx).Some?
    ensures Eval(p, more, e, ctx) == Eval(p, fuel, e, ctx)
    decreases fuel, 2, e, 1
  {
    match e
    case Lit(_) =>
    case Name(_) =>
    case LambdaExpr(_, _) =>
    case DotExpr(o, _) => FuelKept(p, fuel, more, o, ctx);
    case OptionalChainExpr(o, _) => FuelKept(p, fuel, more, o, ctx);
    case UnaryExpr(o) => FuelKept(p, fuel, more, o, ctx);
    case IndexExpr(_, _) => FuelKeptTwo(p, fuel, more, e, ctx);
    case BinaryExpr(_, _, _) => FuelKeptTwo(p, fuel, more, e, ctx);
    case NullCoalesceExpr(_, _) => FuelKeptTwo(p, fuel, more, e, ctx);
    case TernaryExpr(_, _, _) => FuelKeptTernary(p, fuel, more, e, ctx);
    case PipeExpr(v, filter, args) => FuelKeptPipe(p, fuel, more, e, ctx);
    case CallExpr(f, args) =>
      if f.Name? && args != [] {
        FuelKeptFilter(p, fuel, more, Null, f.name, args, ctx);
      }
    case ArrayExpr(es) => FuelKeptAll(p, fuel, more, es, ctx);
    case ObjectExpr(_, vs) => FuelKeptAll(p, fuel, more, vs, ctx);
  }

  lemma {:induction false} FuelKeptTwo(p: Prims, fuel: nat, more: nat, e: Expr, ctx: Context)
    requires fuel <= more && Eval(p, fuel, e, ctx).Some? && (e.IndexExpr? || e.BinaryExpr? || e.NullCoalesceExpr?)
    ensures Eval(p, more, e, ctx) == Eval(p, fuel, e, ctx)
    decreases fuel, 2, e, 0
  {
    var first := if e.IndexExpr? then e.obj else e.left;
    var second := if e.IndexExpr? then e.index else e.right;
    FuelKept(p, fuel, more, first, ctx);
    if Eval(p, fuel, second, ctx).Some? {
      FuelKept(p, fuel, more, second, ctx);
    }
  }

  lemma {:induction false} FuelKeptTernary(p: Prims, fuel: nat, more: nat, e: Expr, ctx: Context)
    requires fuel <= more && Eval(p, fuel, e, ctx).Some? && e.TernaryExpr?
    ensures Eval(p, more, e, ctx) == Eval(p, fuel, e, ctx)
    decreases fuel, 2, e, 0
  {
    FuelKept(p, fuel, more, e.condition, ctx);
    var c := Eval(p, fuel, e.condition, ctx).value;
    if c.Ok? {
      FuelKept(p, fuel, more, if IsTruthy(p, c.value) then e.thn else e.els, ctx);
    }
  }

  lemma {:induction false} FuelKeptPipe(p: Prims, fuel: nat, more: nat, e: Expr, ctx: Context)
    requires fuel <= more && Eval(p, fuel, e, ctx).Some? && e.PipeExpr?
    ensures Eval(p, more, e, ctx) == Eval(p, fuel, e, ctx)
    decreases fuel, 2, e, 0
  {
    hide EvalFilter;
    FuelKept(p, fuel, more, e.value, ctx);
    var v := Eval(p, fuel, e.value, ctx).value;
    if v.Ok? {
      FuelKeptFilter(p, fuel, more, v.value, e.filter, e.args, ctx);
    }
  }

  lemma {:induction false} FuelKeptAll(p: Prims, fuel: nat, more: nat, es: seq<Expr>, ctx: Context)
    requires fuel <= more && EvalAll(p, fuel, es, ctx).Some?
    ensures EvalAll(p, more, es, ctx) == EvalAll(p, fuel, es, ctx)
    decreases fuel, 2, es, 2
  {
    hide Eval;
    if es != [] {
      FuelKept(p, fuel, more, es[0], ctx);
      if Eval(p, fuel, es[0], ctx).value.Ok? {
        FuelKeptAll(p, fuel, more, es[1..], ctx);
      }
    }
  }

  lemma {:induction false} FuelKeptFilter(p: Prims, fuel: nat, more: nat, val: Value, name: string, argExprs: seq<Expr>, ctx: Context)
    requires fuel <= more && EvalFilter(p, fuel, val, name, argExprs, ctx).Some?
    ensures EvalFilter(p, more, val, name, argExprs, ctx) == EvalFilter(p, fuel, val, name, argExprs, ctx)
    decreases fuel, 2, argExprs, 3
  {
    hide DataFilter, EvalAll, MapAll, FilterAll;
    FuelKeptAll(p, fuel, more, argExprs, ctx);
    var args := EvalAll(p, fuel, argExprs, ctx).value;
    if args.Some? && DataFilter(p, val, name, args.value).None? {
      if name == "map" {
        FuelKeptMap(p, fuel, more, args.value[0], val.items, ctx);
      } else {
        FuelKeptKeep(p, fuel, more, args.value[0], val.items, ctx);
      }
    }
  }

  lemma {:induction false} FuelKeptApply(p: Prims, fuel: nat, more: nat, lambda: Value, item: Value, ctx: Context)
    requires lambda.Lambda? && fuel <= more && Apply(p, fuel, lambda, item, ctx).Some?
    ensures Apply(p, more, lambda, item, ctx) == Apply(p, fuel, lambda, item, ctx)
    decreases fuel, 0
  {
    hide Eval;
    FuelKept(p, fuel - 1, more - 1, lambda.body, Bound(ctx, lambda.param, item));
  }

  lemma {:induction false} FuelKeptMap(p: Prims, fuel: nat, more: nat, lambda: Value, items: seq<Value>, ctx: Context)
    requires lambda.Lambda? && fuel <= more && MapAll(p, fuel, lambda, items, ctx).Some?
    ensures MapAll(p, more, lambda, items, ctx) == MapAll(p, fuel, lambda, items, ctx)
    decreases fuel, 1, items
  {
    hide Apply;
    if items != [] {
      FuelKeptApply(p, fuel, more, lambda, items[0], ctx);
      if Apply(p, fuel, lambda, items[0], ctx).value.Ok? {
        FuelKeptMap(p, fuel, more, lambda, items[1..], ctx);
      }
    }
  }

  lemma {:induction false} FuelKeptKeep(p: Prims, fuel: nat, more: nat, lambda: Value, items: seq<Value>, ctx: Context)
    requires lambda.Lambda? && fuel <= more && FilterAll(p, fuel, lambda, items, ctx).Some?
    ensures FilterAll(p, more, lambda, items, ctx) == FilterAll(p, fuel, lambda, items, ctx)
    decreases fuel, 1, items
  {
    hide Apply;
    if items != [] {
      FuelKeptApply(p, fuel, more, lambda, items[0], ctx);
      if Apply(p, fuel, lambda, items[0], ctx).value.Ok? {
        FuelKeptKeep(p, fuel, more, lambda, items[1..], ctx);
      }
    }
  }

  /** A first-order expression has one result, the same for all sufficient fuel. */
  lemma FirstOrderResult(p: Prims, e: Expr, ctx: Context, fuel: nat)
    requires Sound(p) && CleanContext(ctx) && FirstOrder(e) && fuel >= Depth(e)
    ensures Eval(p, fuel, e, ctx) == Eval(p, Depth(e), e, ctx) && Good(Eval(p, fuel, e, ctx))
  {
    FirstOrderTotal(p, Depth(e), e, ctx);
    FuelKept(p, Depth(e), fuel, e, ctx);
  }
}
