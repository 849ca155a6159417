/** Laws of evaluation. */
module EvalLaws {
  import opened Options
  import opened Syntax
  import opened Evaluation

  // They relate expressions to each other and to plain values, so they say what a result is, whatever computes it.

  // ---------- Literals, names, conditions ----------

  lemma Literals(p: Prims, fuel: nat, ctx: Context, n: int, t: string, s: string, b: bool)
    ensures Eval(p, fuel, Lit(LInt(n)), ctx) == Some(Ok(Int(n)))
    ensures Eval(p, fuel, Lit(LFloat(t)), ctx) == Some(Ok(Float(t)))
    ensures Eval(p, fuel, Lit(LString(s)), ctx) == Some(Ok(Str(s)))
    ensures Eval(p, fuel, Lit(LBool(b)), ctx) == Some(Ok(Bool(b)))
    ensures Eval(p, fuel, Lit(LNull), ctx) == Some(Ok(Null))
  {
  }

  /** Parameters hide the context's parts, which hide nothing else; a name of neither is null. */
  lemma Names(p: Prims, fuel: nat, ctx: Context, x: string)
    ensures x in ctx.vars ==> Eval(p, fuel, Name(x), ctx) == Some(Ok(ctx.vars[x]))
    ensures "input" !in ctx.vars ==> Eval(p, fuel, Name("input"), ctx) == Some(Ok(ctx.input))
    ensures "state" !in ctx.vars ==> Eval(p, fuel, Name("state"), ctx) == Some(Ok(ctx.state))
    ensures "meta" !in ctx.vars ==> Eval(p, fuel, Name("meta"), ctx) == Some(Ok(ctx.meta))
    ensures x !in ctx.vars && x !in {"input", "state", "meta", "true", "false"} ==> Eval(p, fuel, Name(x), ctx) == Some(Ok(Null))
  {
  }

  /**
   * A ternary takes its last branch for null, false, the empty string, zero and the empty array, and its first for every
   * other value; a condition without a value is the result.
   */
  lemma TernaryChooses(p: Prims, fuel: nat, c: Expr, t: Expr, f: Expr, ctx: Context)
    ensures var (cond, r) := (Eval(p, fuel, c, ctx), Eval(p, fuel, TernaryExpr(c, t, f), ctx));
            if cond.Some? && cond.value.Ok? then
              var v := cond.value.value;
              if v == Null || v == Bool(false) || v == Str("") || v == Int(0) || v == Array([]) || (v.Float? && p.zero(v.text))
              then r == Eval(p, fuel, f, ctx) else r == Eval(p, fuel, t, ctx)
            else r == cond
  {
  }

  /** So for literals. */
  lemma LiteralConditions(p: Prims, fuel: nat, t: Expr, f: Expr, ctx: Context, n: int, s: string)
    ensures Eval(p, fuel, TernaryExpr(Lit(LBool(true)), t, f), ctx) == Eval(p, fuel, t, ctx)
    ensures Eval(p, fuel, TernaryExpr(Lit(LBool(false)), t, f), ctx) == Eval(p, fuel, f, ctx)
    ensures Eval(p, fuel, TernaryExpr(Lit(LNull), t, f), ctx) == Eval(p, fuel, f, ctx)
    ensures Eval(p, fuel, TernaryExpr(Lit(LInt(n)), t, f), ctx) == if n == 0 then Eval(p, fuel, f, ctx) else Eval(p, fuel, t, ctx)
    ensures Eval(p, fuel, TernaryExpr(Lit(LString(s)), t, f), ctx) == if s == "" then Eval(p, fuel, f, ctx) else Eval(p, fuel, t, ctx)
    ensures Eval(p, fuel, TernaryExpr(ArrayExpr([]), t, f), ctx) == Eval(p, fuel, f, ctx)
  {
    hide Eval;
    Literals(p, fuel, ctx, n, "", s, true);
    Literals(p, fuel, ctx, n, "", s, false);
    EmptyArray(p, fuel, ctx);
    TernaryChooses(p, fuel, Lit(LBool(true)), t, f, ctx);
    TernaryChooses(p, fuel, Lit(LBool(false)), t, f, ctx);
    TernaryChooses(p, fuel, Lit(LNull), t, f, ctx);
    TernaryChooses(p, fuel, Lit(LInt(n)), t, f, ctx);
    TernaryChooses(p, fuel, Lit(LString(s)), t, f, ctx);
    TernaryChooses(p, fuel, ArrayExpr([]), t, f, ctx);
  }

  lemma EmptyArray(p: Prims, fuel: nat, ctx: Context)
    ensures Eval(p, fuel, ArrayExpr([]), ctx) == Some(Ok(Array([])))
  {
    assert EvalAll(p, fuel, [], ctx) == Some(Some([]));
  }

  /** `&&`, `||` and `!` are ternaries. */
  lemma LogicIsTernary(p: Prims, fuel: nat, a: Expr, b: Expr, ctx: Context)
    ensures Eval(p, fuel, BinaryExpr("&&", a, b), ctx) == Eval(p, fuel, TernaryExpr(a, b, a), ctx)
    ensures Eval(p, fuel, BinaryExpr("||", a, b), ctx) == Eval(p, fuel, TernaryExpr(a, a, b), ctx)
    ensures Eval(p, fuel, UnaryExpr(a), ctx) == Eval(p, fuel, TernaryExpr(a, Lit(LBool(false)), Lit(LBool(true))), ctx)
  {
  }

  /** As conditions they nest. */
  lemma ConditionsNest(p: Prims, fuel: nat, a: Expr, b: Expr, t: Expr, f: Expr, ctx: Context)
    ensures Eval(p, fuel, TernaryExpr(BinaryExpr("&&", a, b), t, f), ctx) == Eval(p, fuel, TernaryExpr(a, TernaryExpr(b, t, f), f), ctx)
    ensures Eval(p, fuel, TernaryExpr(BinaryExpr("||", a, b), t, f), ctx) == Eval(p, fuel, TernaryExpr(a, t, TernaryExpr(b, t, f)), ctx)
    ensures Eval(p, fuel, TernaryExpr(UnaryExpr(a), t, f), ctx) == Eval(p, fuel, TernaryExpr(a, f, t), ctx)
  {
    hide Eval;
    var and, or, not := BinaryExpr("&&", a, b), BinaryExpr("||", a, b), UnaryExpr(a);
    Literals(p, fuel, ctx, 0, "", "", true);
    Literals(p, fuel, ctx, 0, "", "", false);
    LogicIsTernary(p, fuel, a, b, ctx);
    TernaryChooses(p, fuel, a, b, a, ctx);
    TernaryChooses(p, fuel, a, a, b, ctx);
    TernaryChooses(p, fuel, a, Lit(LBool(false)), Lit(LBool(true)), ctx);
    TernaryChooses(p, fuel, b, t, f, ctx);
    TernaryChooses(p, fuel, and, t, f, ctx);
    TernaryChooses(p, fuel, or, t, f, ctx);
    TernaryChooses(p, fuel, not, t, f, ctx);
    TernaryChooses(p, fuel, a, TernaryExpr(b, t, f), f, ctx);
    TernaryChooses(p, fuel, a, t, TernaryExpr(b, t, f), ctx);
    TernaryChooses(p, fuel, a, f, t, ctx);
  }

  /** `a ?? b` is b when a is null, and a otherwise. */
  lemma Coalesces(p: Prims, fuel: nat, a: Expr, b: Expr, ctx: Context)
    ensures Eval(p, fuel, NullCoalesceExpr(a, b), ctx) ==
            if Eval(p, fuel, a, ctx) == Some(Ok(Null)) then Eval(p, fuel, b, ctx) else Eval(p, fuel, a, ctx)
  {
  }

  /** The filter `default` does the same, but for evaluating its argument first. */
  lemma DefaultCoalesces(p: Prims, fuel: nat, a: Expr, b: Expr, ctx: Context, v: Value)
    requires Eval(p, fuel, b, ctx) == Some(Ok(v))
    ensures Eval(p, fuel, PipeExpr(a, "default", [b]), ctx) == Eval(p, fuel, NullCoalesceExpr(a, b), ctx)
  {
    OneArgument(p, fuel, b, ctx, v);
  }

  /** Other operators take the values of their sides, the left one first. */
  lemma OperatorsApply(p: Prims, fuel: nat, op: string, l: Expr, r: Expr, ctx: Context, lv: Value, rv: Value)
    requires op in {"+", "-", "*", "/", "%", "==", "!=", ">", ">=", "<", "<="}
    requires Eval(p, fuel, l, ctx) == Some(Ok(lv))
    ensures Eval(p, fuel, r, ctx) == Some(Ok(rv)) ==> Eval(p, fuel, BinaryExpr(op, l, r), ctx) == Some(Ok(p.binary(op, lv, rv)))
    ensures Eval(p, fuel, r, ctx) == Some(Err) ==> Eval(p, fuel, BinaryExpr(op, l, r), ctx) == Some(Err)
  {
  }

  // ---------- Arrays and objects ----------

  /** The values of these expressions, in order. */
  ghost predicate Values(p: Prims, fuel: nat, es: seq<Expr>, ctx: Context, vs: seq<Value>) {
    |vs| == |es| && forall i :: 0 <= i < |es| ==> Eval(p, fuel, es[i], ctx) == Some(Ok(vs[i]))
  }

  lemma {:induction false} AllValues(p: Prims, fuel: nat, es: seq<Expr>, ctx: Context, vs: seq<Value>)
    ensures EvalAll(p, fuel, es, ctx) == Some(Some(vs)) <==> Values(p, fuel, es, ctx, vs)
  {
    if es != [] {
      var all := EvalAll(p, fuel, es[1..], ctx);
      if vs != [] {
        AllValues(p, fuel, es[1..], ctx, vs[1..]);
        assert vs == [vs[0]] + vs[1..];
        if Values(p, fuel, es, ctx, vs) {
          assert Eval(p, fuel, es[0], ctx) == Some(Ok(vs[0]));
          forall i | 0 <= i < |es[1..]| ensures Eval(p, fuel, es[1..][i], ctx) == Some(Ok(vs[1..][i])) {
            assert Eval(p, fuel, es[i + 1], ctx) == Some(Ok(vs[i + 1]));
          }
        }
        if Values(p, fuel, es[1..], ctx, vs[1..]) && Eval(p, fuel, es[0], ctx) == Some(Ok(vs[0])) {
          forall i | 0 <= i < |es| ensures Eval(p, fuel, es[i], ctx) == Some(Ok(vs[i])) {
            if i > 0 {
              assert Eval(p, fuel, es[1..][i - 1], ctx) == Some(Ok(vs[1..][i - 1]));
            }
          }
        }
      }
    }
  }

  lemma OneArgument(p: Prims, fuel: nat, e: Expr, ctx: Context, v: Value)
    requires Eval(p, fuel, e, ctx) == Some(Ok(v))
    ensures EvalAll(p, fuel, [e], ctx) == Some(Some([v]))
  {
    hide Eval, EvalAll;
    assert [e][0] == e;
    AllValues(p, fuel, [e], ctx, [v]);
  }

  /** An array holds the values of its elements. */
  lemma ArraysHold(p: Prims, fuel: nat, es: seq<Expr>, ctx: Context, vs: seq<Value>)
    ensures Eval(p, fuel, ArrayExpr(es), ctx) == Some(Ok(Array(vs))) <==> Values(p, fuel, es, ctx, vs)
  {
    hide EvalAll, Values;
    AllValues(p, fuel, es, ctx, vs);
  }

  /** Indexing counts from the start, or from the end when negative; elsewhere there is null. */
  lemma IndexFinds(p: Prims, fuel: nat, a: Expr, i: Expr, ctx: Context, vs: seq<Value>, k: Value, n: int)
    requires Eval(p, fuel, a, ctx) == Some(Ok(Array(vs))) && Eval(p, fuel, i, ctx) == Some(Ok(k)) && p.toInt(k) == Some(n)
    ensures var r := Eval(p, fuel, IndexExpr(a, i), ctx);
            && (0 <= n < |vs| ==> r == Some(Ok(vs[n])))
            && (-|vs| <= n < 0 ==> r == Some(Ok(vs[|vs| + n])))
            && (n >= |vs| || n < -|vs| ==> r == Some(Ok(Null)))
  {
  }

  /** In an object the last entry of a key counts; other keys give null, and so do fields of anything else. */
  lemma FieldsFind(p: Prims, fuel: nat, ks: seq<string>, es: seq<Expr>, ctx: Context, vs: seq<Value>, k: string)
    requires |ks| == |es| && Values(p, fuel, es, ctx, vs)
    ensures var r := Eval(p, fuel, DotExpr(ObjectExpr(ks, es), k), ctx);
            && (forall i :: 0 <= i < |ks| && ks[i] == k && k !in ks[i + 1..] ==> r == Some(Ok(vs[i])))
            && (k !in ks ==> r == Some(Ok(Null)))
  {
    hide Eval, EvalAll, Zip;
    ObjectsHold(p, fuel, ks, es, ctx, vs);
    ZipFinds(ks, vs, k);
    AccessesAgree(p, fuel, ObjectExpr(ks, es), k, ctx);
  }

  lemma ObjectsHold(p: Prims, fuel: nat, ks: seq<string>, es: seq<Expr>, ctx: Context, vs: seq<Value>)
    requires Values(p, fuel, es, ctx, vs)
    ensures Eval(p, fuel, ObjectExpr(ks, es), ctx) == Some(Ok(Object(Zip(ks, vs))))
  {
    hide EvalAll, Values, Zip;
    AllValues(p, fuel, es, ctx, vs);
  }

  lemma {:induction false} ZipFinds(ks: seq<string>, vs: seq<Value>, k: string)
    requires |ks| == |vs|
    ensures forall i :: 0 <= i < |ks| && ks[i] == k && k !in ks[i + 1..] ==> k in Zip(ks, vs) && Zip(ks, vs)[k] == vs[i]
    ensures k !in ks ==> k !in Zip(ks, vs)
  {
    if ks != [] {
      ZipFinds(ks[1..], vs[1..], k);
      forall i | 0 <= i < |ks| && ks[i] == k && k !in ks[i + 1..] ensures k in Zip(ks, vs) && Zip(ks, vs)[k] == vs[i] {
        if i > 0 {
          assert ks[1..][i - 1] == k && ks[1..][i..] == ks[i + 1..] && vs[1..][i - 1] == vs[i];
        } else {
          ZipKeys(ks[1..], vs[1..], k);
        }
      }
    }
  }

  lemma {:induction false} ZipKeys(ks: seq<string>, vs: seq<Value>, k: string)
    ensures k in Zip(ks, vs) ==> k in ks
  {
    if ks != [] && vs != [] {
      ZipKeys(ks[1..], vs[1..], k);
    }
  }

  /** `?.` differs from `.` in nothing: both give null where there is no object. */
  lemma AccessesAgree(p: Prims, fuel: nat, o: Expr, k: string, ctx: Context)
    ensures Eval(p, fuel, OptionalChainExpr(o, k), ctx) == Eval(p, fuel, DotExpr(o, k), ctx)
    ensures Eval(p, fuel, o, ctx) == Some(Ok(Null)) ==> Eval(p, fuel, DotExpr(o, k), ctx) == Some(Ok(Null))
    ensures forall m: map<string, Value> :: Eval(p, fuel, o, ctx) == Some(Ok(Object(m))) ==>
              Eval(p, fuel, DotExpr(o, k), ctx) == Some(Ok(if k in m then m[k] else Null))
  {
  }

  /** A call of a name is that filter on null. */
  lemma CallsAreFilters(p: Prims, fuel: nat, f: string, args: seq<Expr>, ctx: Context)
    requires args != []
    ensures Eval(p, fuel, CallExpr(Name(f), args), ctx) == Eval(p, fuel, PipeExpr(Lit(LNull), f, args), ctx)
  {
  }

  // ---------- map and filter ----------

  /** The body with the parameter bound to an item; applications nest one level deeper. */
  ghost function OnItem(p: Prims, fuel: nat, body: Expr, ctx: Context, x: string, item: Value): Outcome {
    if fuel == 0 then None else Eval(p, fuel - 1, body, ctx.(vars := ctx.vars[x := item]))
  }

  ghost predicate Mapped(p: Prims, fuel: nat, x: string, body: Expr, items: seq<Value>, ctx: Context, vs: seq<Value>) {
    |vs| == |items| && forall i :: 0 <= i < |items| ==> OnItem(p, fuel, body, ctx, x, items[i]) == Some(Ok(vs[i]))
  }

  lemma {:induction false} MapAllMeans(p: Prims, fuel: nat, x: string, body: Expr, items: seq<Value>, ctx: Context, vs: seq<Value>)
    ensures MapAll(p, fuel, Lambda(x, body), items, ctx) == Some(Ok(Array(vs))) <==> Mapped(p, fuel, x, body, items, ctx, vs)
  {
    hide Eval;
    if items != [] && vs != [] {
      MapAllMeans(p, fuel, x, body, items[1..], ctx, vs[1..]);
      assert vs == [vs[0]] + vs[1..];
      assert Apply(p, fuel, Lambda(x, body), items[0], ctx) == OnItem(p, fuel, body, ctx, x, items[0]);
      if Mapped(p, fuel, x, body, items, ctx, vs) {
        assert OnItem(p, fuel, body, ctx, x, items[0]) == Some(Ok(vs[0]));
        forall i | 0 <= i < |items[1..]| ensures OnItem(p, fuel, body, ctx, x, items[1..][i]) == Some(Ok(vs[1..][i])) {
          assert OnItem(p, fuel, body, ctx, x, items[i + 1]) == Some(Ok(vs[i + 1]));
        }
      }
      if OnItem(p, fuel, body, ctx, x, items[0]) == Some(Ok(vs[0])) && Mapped(p, fuel, x, body, items[1..], ctx, vs[1..]) {
        forall i | 0 <= i < |items| ensures OnItem(p, fuel, body, ctx, x, items[i]) == Some(Ok(vs[i])) {
          if i > 0 {
            assert OnItem(p, fuel, body, ctx, x, items[1..][i - 1]) == Some(Ok(vs[1..][i - 1]));
          }
        }
      }
    }
  }

  /** `map` gives an array of the same length: item by item, in order, what the body makes of it. */
  lemma MapsItems(p: Prims, fuel: nat, a: Expr, x: string, body: Expr, ctx: Context, items: seq<Value>, vs: seq<Value>)
    requires Eval(p, fuel, a, ctx) == Some(Ok(Array(items)))
    ensures Eval(p, fuel, PipeExpr(a, "map", [LambdaExpr(x, body)]), ctx) == Some(Ok(Array(vs))) <==>
            Mapped(p, fuel, x, body, items, ctx, vs)
  {
    LambdaFilter(p, fuel, a, "map", x, body, ctx, items);
    MapAllMeans(p, fuel, x, body, items, ctx, vs);
  }

  lemma LambdaFilter(p: Prims, fuel: nat, a: Expr, name: string, x: string, body: Expr, ctx: Context, items: seq<Value>)
    requires Eval(p, fuel, a, ctx) == Some(Ok(Array(items))) && (name == "map" || name == "filter")
    ensures Eval(p, fuel, PipeExpr(a, name, [LambdaExpr(x, body)]), ctx) ==
            if name == "map" then MapAll(p, fuel, Lambda(x, body), items, ctx) else FilterAll(p, fuel, Lambda(x, body), items, ctx)
  {
    hide MapAll, FilterAll;
    assert Eval(p, fuel, LambdaExpr(x, body), ctx) == Some(Ok(Lambda(x, body)));
    OneArgument(p, fuel, LambdaExpr(x, body), ctx, Lambda(x, body));
    var args := [Lambda(x, body)];
    assert DataFilter(p, Array(items), name, args).None? && args[0] == Lambda(x, body);
  }

  /** Whether the body, taken as a condition, holds of an item; None without a value. */
  ghost function HoldsOf(p: Prims, fuel: nat, body: Expr, ctx: Context, x: string, item: Value): Outcome {
    OnItem(p, fuel, TernaryExpr(body, Lit(LBool(true)), Lit(LBool(false))), ctx, x, item)
  }

  /** `kept` are the positions of the items of which the body holds, in order; of the others it does not. */
  ghost predicate Filtered(p: Prims, fuel: nat, x: string, body: Expr, items: seq<Value>, ctx: Context, kept: seq<nat>) {
    && (forall j :: 0 <= j < |kept| ==> kept[j] < |items|)
    && (forall j, k :: 0 <= j < k < |kept| ==> kept[j] < kept[k])
    && (forall i :: 0 <= i < |items| ==> HoldsOf(p, fuel, body, ctx, x, items[i]) == Some(Ok(Bool(i in kept))))
  }

  ghost function Picked(items: seq<Value>, kept: seq<nat>): seq<Value>
    requires forall j :: 0 <= j < |kept| ==> kept[j] < |items|
  {
    seq(|kept|, j requires 0 <= j < |kept| => items[kept[j]])
  }

  /** `filter` keeps, in order, the items themselves of which the body holds. */
  lemma {:induction false} FilterAllMeans(p: Prims, fuel: nat, x: string, body: Expr, items: seq<Value>, ctx: Context) returns (kept: seq<nat>)
    requires FilterAll(p, fuel, Lambda(x, body), items, ctx).Some? && FilterAll(p, fuel, Lambda(x, body), items, ctx).value.Ok?
    ensures Filtered(p, fuel, x, body, items, ctx, kept)
    ensures FilterAll(p, fuel, Lambda(x, body), items, ctx) == Some(Ok(Array(Picked(items, kept))))
  {
    hide Eval, HoldsOf;
    if items == [] {
      kept := [];
      assert Picked(items, kept) == [];
    } else {
      var rest := FilterAllMeans(p, fuel, x, body, items[1..], ctx);
      FirstHolds(p, fuel, x, body, items[0], ctx);
      var first := HoldsOf(p, fuel, body, ctx, x, items[0]) == Some(Ok(Bool(true)));
      var later := seq(|rest|, j requires 0 <= j < |rest| => rest[j] + 1);
      kept := (if first then [0] else []) + later;
      KeptShift(items, rest, later, first, kept);
      var v := Apply(p, fuel, Lambda(x, body), items[0], ctx).value.value;
      assert FilterAll(p, fuel, Lambda(x, body), items, ctx) ==
             Some(Ok(Array((if IsTruthy(p, v) then [items[0]] else []) + Picked(items[1..], rest))));
      forall i | 0 <= i < |items| ensures HoldsOf(p, fuel, body, ctx, x, items[i]) == Some(Ok(Bool(i in kept))) {
        if i > 0 {
          assert items[1..][i - 1] == items[i];
        }
      }
    }
  }

  lemma KeptShift(items: seq<Value>, rest: seq<nat>, later: seq<nat>, first: bool, kept: seq<nat>)
    requires items != [] && |later| == |rest| && forall j :: 0 <= j < |rest| ==> later[j] == rest[j] + 1 && rest[j] < |items| - 1
    requires forall j, k :: 0 <= j < k < |rest| ==> rest[j] < rest[k]
    requires kept == (if first then [0] else []) + later
    ensures forall j :: 0 <= j < |kept| ==> kept[j] < |items|
    ensures forall j, k :: 0 <= j < k < |kept| ==> kept[j] < kept[k]
    ensures 0 in kept <==> first
    ensures forall i: nat :: i > 0 ==> (i in kept <==> i - 1 in rest)
    ensures Picked(items, kept) == (if first then [items[0]] else []) + Picked(items[1..], rest)
  {
    forall i: nat | i > 0 ensures i in kept <==> i - 1 in rest {
      if i - 1 in rest {
        var j :| 0 <= j < |rest| && rest[j] == i - 1;
        assert later[j] == i;
      }
    }
  }

  /** One turn of `filter`. */
  lemma FirstHolds(p: Prims, fuel: nat, x: string, body: Expr, item: Value, ctx: Context)
    ensures var r := Apply(p, fuel, Lambda(x, body), item, ctx);
            r.Some? && r.value.Ok? ==> HoldsOf(p, fuel, body, ctx, x, item) == Some(Ok(Bool(IsTruthy(p, r.value.value))))
  {
    hide Eval;
    if fuel > 0 {
      var inner := ctx.(vars := ctx.vars[x := item]);
      Literals(p, fuel - 1, inner, 0, "", "", true);
      Literals(p, fuel - 1, inner, 0, "", "", false);
      TernaryChooses(p, fuel - 1, body, Lit(LBool(true)), Lit(LBool(false)), inner);
    }
  }

  lemma FiltersItems(p: Prims, fuel: nat, a: Expr, x: string, body: Expr, ctx: Context, items: seq<Value>) returns (kept: seq<nat>)
    requires Eval(p, fuel, a, ctx) == Some(Ok(Array(items)))
    requires var r := Eval(p, fuel, PipeExpr(a, "filter", [LambdaExpr(x, body)]), ctx); r.Some? && r.value.Ok?
    ensures Filtered(p, fuel, x, body, items, ctx, kept)
    ensures Eval(p, fuel, PipeExpr(a, "filter", [LambdaExpr(x, body)]), ctx) == Some(Ok(Array(Picked(items, kept))))
  {
    hide Eval;
    LambdaFilter(p, fuel, a, "filter", x, body, ctx, items);
    kept := FilterAllMeans(p, fuel, x, body, items, ctx);
  }

  /** With a text instead of a lambda, `map` reads that field of every item. */
  lemma MapsFields(p: Prims, fuel: nat, a: Expr, k: string, ctx: Context, items: seq<Value>)
    requires Eval(p, fuel, a, ctx) == Some(Ok(Array(items)))
    ensures Eval(p, fuel, PipeExpr(a, "map", [Lit(LString(k))]), ctx) ==
            Some(Ok(Array(seq(|items|, i requires 0 <= i < |items| => FieldOf(items[i], k)))))
  {
    OneArgument(p, fuel, Lit(LString(k)), ctx, Str(k));
    FieldsAtMeans(items, k);
    hide FieldsAt;
    var args := [Str(k)];
    assert DataFilter(p, Array(items), "map", args) == Some(Ok(Array(FieldsAt(items, k))));
  }

  function FieldOf(v: Value, k: string): Value {
    match v
    case Object(m) => if k in m then m[k] else Null
    case _ => Null
  }

  lemma {:induction false} FieldsAtMeans(vs: seq<Value>, k: string)
    ensures FieldsAt(vs, k) == seq(|vs|, i requires 0 <= i < |vs| => FieldOf(vs[i], k))
  {
    if vs != [] {
      FieldsAtMeans(vs[1..], k);
    }
  }

  // ---------- Filters that move values about ----------

  lemma MovingFilter(p: Prims, fuel: nat, a: Expr, name: string, ctx: Context, vs: seq<Value>)
    requires Eval(p, fuel, a, ctx) == Some(Ok(Array(vs))) && name in {"first", "last", "reverse", "flatten", "unique"}
    ensures Eval(p, fuel, PipeExpr(a, name, []), ctx) == Some(Ok(ArrayFilter(p, name, vs, [])))
  {
    assert EvalAll(p, fuel, [], ctx) == Some(Some([]));
  }

  /** `first` and `last` are the two ends, `reverse` turns the order round. */
  lemma EndsAndReverse(p: Prims, fuel: nat, a: Expr, ctx: Context, vs: seq<Value>)
    requires Eval(p, fuel, a, ctx) == Some(Ok(Array(vs)))
    ensures Eval(p, fuel, PipeExpr(a, "first", []), ctx) == Some(Ok(if vs == [] then Null else vs[0]))
    ensures Eval(p, fuel, PipeExpr(a, "last", []), ctx) == Some(Ok(if vs == [] then Null else vs[|vs| - 1]))
    ensures Eval(p, fuel, PipeExpr(a, "reverse", []), ctx) ==
            Some(Ok(Array(seq(|vs|, i requires 0 <= i < |vs| => vs[|vs| - 1 - i]))))
  {
    hide Eval;
    MovingFilter(p, fuel, a, "first", ctx, vs);
    MovingFilter(p, fuel, a, "last", ctx, vs);
    MovingFilter(p, fuel, a, "reverse", ctx, vs);
    ReversedMeans(vs);
  }

  lemma {:induction false} ReversedMeans(vs: seq<Value>)
    ensures Reversed(vs) == seq(|vs|, i requires 0 <= i < |vs| => vs[|vs| - 1 - i])
  {
    if vs != [] {
      ReversedMeans(vs[1..]);
    }
  }

  /** `concat` appends another array, `slice` cuts one out. */
  lemma ConcatAndSlice(p: Prims, fuel: nat, a: Expr, b: Expr, ctx: Context, vs: seq<Value>, ws: seq<Value>)
    requires Eval(p, fuel, a, ctx) == Some(Ok(Array(vs))) && Eval(p, fuel, b, ctx) == Some(Ok(Array(ws)))
    ensures Eval(p, fuel, PipeExpr(a, "concat", [b]), ctx) == Some(Ok(Array(vs + ws)))
  {
    OneArgument(p, fuel, b, ctx, Array(ws));
    var args := [Array(ws)];
    assert args[1..] == [] && Concatenated([]) == [] && ws + [] == ws;
    assert Concatenated(args) == ws;
    assert DataFilter(p, Array(vs), "concat", args) == Some(Ok(Array(vs + ws)));
  }

  lemma SliceCuts(p: Prims, fuel: nat, a: Expr, i: Expr, j: Expr, ctx: Context, vs: seq<Value>, iv: Value, jv: Value, m: int, n: int)
    requires Eval(p, fuel, a, ctx) == Some(Ok(Array(vs)))
    requires Eval(p, fuel, i, ctx) == Some(Ok(iv)) && Eval(p, fuel, j, ctx) == Some(Ok(jv))
    requires p.toInt(iv) == Some(m) && p.toInt(jv) == Some(n)
    ensures var r := Eval(p, fuel, PipeExpr(a, "slice", [i, j]), ctx);
            && (0 <= m <= n <= |vs| ==> r == Some(Ok(Array(vs[m..n]))))
            && (m < 0 ==> r == Some(Ok(Array(if n <= 0 then [] else if n < |vs| then vs[..n] else vs))))
            && (n > |vs| ==> r == Some(Ok(Array(if m >= |vs| then [] else if m > 0 then vs[m..] else vs))))
            && (m > n ==> r == Some(Ok(Array([]))))
  {
    assert [i, j][0] == i && [i, j][1] == j;
    AllValues(p, fuel, [i, j], ctx, [iv, jv]);
    hide EvalAll, DataFilter, Values;
    SliceFilter(p, vs, iv, jv, m, n);
    SliceOf(vs, m, n);
  }

  lemma SliceOf(vs: seq<Value>, m: int, n: int)
    ensures var (lo, hi) := (if m > 0 then m else 0, if n < |vs| then n else |vs|);
            var r := if lo >= hi then [] else vs[lo..hi];
            && (0 <= m <= n <= |vs| ==> r == vs[m..n])
            && (m < 0 ==> r == if n <= 0 then [] else if n < |vs| then vs[..n] else vs)
            && (n > |vs| ==> r == if m >= |vs| then [] else if m > 0 then vs[m..] else vs)
            && (m > n ==> r == [])
  {
  }

  lemma SliceFilter(p: Prims, vs: seq<Value>, iv: Value, jv: Value, m: int, n: int)
    requires p.toInt(iv) == Some(m) && p.toInt(jv) == Some(n)
    ensures DataFilter(p, Array(vs), "slice", [iv, jv]) ==
            Some(Ok(Array(var (lo, hi) := (if m > 0 then m else 0, if n < |vs| then n else |vs|); if lo >= hi then [] else vs[lo..hi])))
  {
  }

  /** `flatten` opens the arrays of an array, one level, in place. */
  lemma FlattensOneLevel(p: Prims, fuel: nat, a: Expr, ctx: Context, us: seq<Value>, v: Value, ws: seq<Value>)
    requires Eval(p, fuel, a, ctx) == Some(Ok(Array(us + [v] + ws)))
    ensures Eval(p, fuel, PipeExpr(a, "flatten", []), ctx) ==
            Some(Ok(Array(Flattened(us) + (if v.Array? then v.items else [v]) + Flattened(ws))))
    ensures Flattened([]) == []
  {
    hide Eval, Flattened;
    MovingFilter(p, fuel, a, "flatten", ctx, us + [v] + ws);
    FlattenedParts(us, v, ws);
  }

  lemma FlattenedParts(us: seq<Value>, v: Value, ws: seq<Value>)
    ensures Flattened(us + [v] + ws) == Flattened(us) + (if v.Array? then v.items else [v]) + Flattened(ws) && Flattened([]) == []
  {
    FlattenedJoins(us + [v], ws);
    FlattenedJoins(us, [v]);
    FlattenedOne(v);
  }

  lemma FlattenedOne(v: Value)
    ensures Flattened([v]) == if v.Array? then v.items else [v]
  {
    assert [v][1..] == [] && Flattened([]) == [];
    var open := if v.Array? then v.items else [v];
    assert open + [] == open;
  }

  lemma {:induction false} FlattenedJoins(a: seq<Value>, b: seq<Value>)
    ensures Flattened(a + b) == Flattened(a) + Flattened(b)
  {
    if a == [] {
      assert a + b == b;
    } else {
      FlattenedJoins(a[1..], b);
      assert (a + b)[1..] == a[1..] + b;
    }
  }

  /** `unique` keeps the first of the items with the same key. */
  lemma KeepsFirsts(p: Prims, fuel: nat, a: Expr, ctx: Context, vs: seq<Value>) returns (kept: seq<nat>)
    requires Eval(p, fuel, a, ctx) == Some(Ok(Array(vs)))
    ensures forall j :: 0 <= j < |kept| ==> kept[j] < |vs|
    ensures forall j, k :: 0 <= j < k < |kept| ==> kept[j] < kept[k]
    ensures forall i: nat :: i < |vs| ==> (i in kept <==> forall h :: 0 <= h < i ==> p.key(vs[h]) != p.key(vs[i]))
    ensures Eval(p, fuel, PipeExpr(a, "unique", []), ctx) == Some(Ok(Array(Picked(vs, kept))))
  {
    hide Eval;
    MovingFilter(p, fuel, a, "unique", ctx, vs);
    kept := UniqueMeans(p, vs, {});
  }

  lemma {:induction false} UniqueMeans(p: Prims, vs: seq<Value>, seen: set<string>) returns (kept: seq<nat>)
    ensures forall j :: 0 <= j < |kept| ==> kept[j] < |vs|
    ensures forall j, k :: 0 <= j < k < |kept| ==> kept[j] < kept[k]
    ensures forall i: nat :: i < |vs| ==>
              (i in kept <==> p.key(vs[i]) !in seen && forall h :: 0 <= h < i ==> p.key(vs[h]) != p.key(vs[i]))
    ensures Unique(p, vs, seen) == Picked(vs, kept)
  {
    if vs == [] {
      kept := [];
      assert Picked(vs, kept) == [];
    } else {
      var first := p.key(vs[0]) !in seen;
      var rest := UniqueMeans(p, vs[1..], if first then seen + {p.key(vs[0])} else seen);
      var later := seq(|rest|, j requires 0 <= j < |rest| => rest[j] + 1);
      kept := (if first then [0] else []) + later;
      KeptShift(vs, rest, later, first, kept);
      forall i: nat | 0 < i < |vs|
        ensures i in kept <==> p.key(vs[i]) !in seen && forall h :: 0 <= h < i ==> p.key(vs[h]) != p.key(vs[i])
      {
        assert vs[1..][i - 1] == vs[i];
        assert forall h :: 0 < h < i ==> vs[1..][h - 1] == vs[h];
        assert (forall h :: 0 <= h < i ==> p.key(vs[h]) != p.key(vs[i])) <==>
               p.key(vs[0]) != p.key(vs[i]) && forall h :: 0 <= h < i - 1 ==> p.key(vs[1..][h]) != p.key(vs[i]);
      }
    }
  }
}
