/** What parameter resolution promises: layering, independence of map iteration order, and watches that cover it. */
module ParamLaws {
  import opened Wrappers
  import opened Api
  import opened Params

  // ----- layering -----

  /** The last layer that defines a key, or -1. */
  function LastDefiner(layers: seq<Data>, k: string): (i: int)
    ensures -1 <= i < |layers|
    ensures i >= 0 ==> k in layers[i]
    ensures forall j :: i < j < |layers| ==> k !in layers[j]
  {
    if layers == [] then -1
    else if k in layers[|layers| - 1] then |layers| - 1
    else LastDefiner(layers[..|layers| - 1], k)
  }

  lemma {:induction false} OverlayConcat(a: seq<Data>, b: seq<Data>)
    ensures Overlay(a + b) == Overlay(a) + Overlay(b)
  {
    if a == [] {
      assert a + b == b;
    } else {
      assert (a + b)[1..] == a[1..] + b;
      OverlayConcat(a[1..], b);
    }
  }

  lemma OverlayNone()
    ensures Overlay([]) == map[]
  {
  }

  lemma OverlayOne(m: Data)
    ensures Overlay([m]) == m
  {
    assert [m][1..] == [];
  }

  lemma {:induction false} OverlayTakesLastDefiner(layers: seq<Data>, k: string)
    ensures k in Overlay(layers) <==> LastDefiner(layers, k) >= 0
    ensures k in Overlay(layers) ==> Overlay(layers)[k] == layers[LastDefiner(layers, k)][k]
  {
    if layers != [] {
      var n := |layers| - 1;
      assert layers == layers[..n] + [layers[n]];
      OverlayConcat(layers[..n], [layers[n]]);
      OverlayOne(layers[n]);
      OverlayTakesLastDefiner(layers[..n], k);
    }
  }

  /** One singleton layer for each output, in iteration order. */
  function OutputLayers(order: seq<string>, outputs: map<string, string>, values: Data): seq<Data>
    requires forall o :: o in order ==> o in outputs && o in values
  {
    if order == [] then []
    else [map[outputs[order[0]] := values[order[0]]]] + OutputLayers(order[1..], outputs, values)
  }

  lemma {:induction false} TakeOutputsOverlays(order: seq<string>, outputs: map<string, string>, values: Data,
                                               p: Progress)
    requires p.Going? && forall o :: o in order ==> o in outputs
    ensures TakeOutputs(order, outputs, values, p).Stuck? <==> exists o :: o in order && o !in values
    ensures TakeOutputs(order, outputs, values, p).Going? ==>
            TakeOutputs(order, outputs, values, p).params == p.params + Overlay(OutputLayers(order, outputs, values))
  {
    if order != [] && order[0] in values {
      var param, val := outputs[order[0]], values[order[0]];
      TakeOutputsOverlays(order[1..], outputs, values, Going(p.params[param := val], p.parts + [param + "=" + val]));
      assert p.params[param := val] == p.params + map[param := val];
    }
  }

  predicate Ready(ns: string, ups: map<Key, Upstream>, dep: Dependency) {
    var k := dep.project.In(ns);
    k in ups && ups[k].succeeded && dep.outputs.Keys <= ups[k].outputs.Keys
  }

  /** The layers that dependencies add, when every upstream is ready. */
  function DependencyLayers(ns: string, ups: map<Key, Upstream>, deps: seq<Dependency>,
                            orders: seq<seq<string>>): Option<seq<Data>>
    requires AreOrders(orders, deps)
  {
    if deps == [] then Some([])
    else
      var n := |deps| - 1;
      var k := deps[n].project.In(ns);
      if Ready(ns, ups, deps[n]) then
        Both(DependencyLayers(ns, ups, deps[..n], orders[..n]),
             Some(OutputLayers(orders[n], deps[n].outputs, ups[k].outputs)))
      else None
  }

  lemma TakeDependencyOverlays(ns: string, ups: map<Key, Upstream>, dep: Dependency, order: seq<string>, p: Progress)
    requires IsOrder(order, dep.outputs.Keys) && p.Going?
    ensures var q := TakeDependency(ns, ups, dep, order, p);
            && (q.Going? <==> Ready(ns, ups, dep))
            && (q.Going? ==>
                  q.params == p.params + Overlay(OutputLayers(order, dep.outputs, ups[dep.project.In(ns)].outputs)))
  {
    var k := dep.project.In(ns);
    if k in ups && ups[k].succeeded {
      TakeOutputsOverlays(order, dep.outputs, ups[k].outputs, p);
      if !(dep.outputs.Keys <= ups[k].outputs.Keys) {
        var o :| o in dep.outputs && o !in ups[k].outputs;
        assert o in order;
      }
    }
  }

  lemma {:induction false} TakeDependenciesOverlays(ns: string, ups: map<Key, Upstream>, deps: seq<Dependency>,
                                                    orders: seq<seq<string>>, p: Progress)
    requires AreOrders(orders, deps) && p.Going?
    ensures var q := TakeDependencies(ns, ups, deps, orders, p);
            match DependencyLayers(ns, ups, deps, orders)
            case None => q.Stuck?
            case Some(layers) => q.Going? && q.params == p.params + Overlay(layers)
  {
    hide TakeDependency, Overlay;
    if deps == [] {
      OverlayNone();
      assert p.params + map[] == p.params;
    } else {
      var n := |deps| - 1;
      var q := TakeDependencies(ns, ups, deps[..n], orders[..n], p);
      TakeDependenciesOverlays(ns, ups, deps[..n], orders[..n], p);
      if q.Going? {
        TakeDependencyOverlays(ns, ups, deps[n], orders[n], q);
        if Ready(ns, ups, deps[n]) {
          var before := DependencyLayers(ns, ups, deps[..n], orders[..n]).value;
          var added := OutputLayers(orders[n], deps[n].outputs, ups[deps[n].project.In(ns)].outputs);
          OverlayConcat(before, added);
          assert p.params + Overlay(before) + Overlay(added) == p.params + (Overlay(before) + Overlay(added));
        }
      }
    }
  }

  /**
   Every layer that feeds the effective parameters, lowest precedence first: valuesFrom entries, paramFrom entries,
   paramBindings (in each entry the Secret after the ConfigMap), inline params, dependency outputs.
   */
  function EffectiveLayers(src: Sources, ns: string, ups: map<Key, Upstream>, spec: ParamSpec,
                           orders: seq<seq<string>>): Option<seq<Data>>
    requires AreOrders(orders, spec.dependencies)
  {
    Both(Both(ExternalLayers(src, ns, spec), Some([spec.params])), DependencyLayers(ns, ups, spec.dependencies, orders))
  }

  /** Resolution succeeds exactly when every layer can be read; each parameter comes from the last that defines it. */
  lemma EffectiveParamsObeyLayering(src: Sources, ns: string, ups: map<Key, Upstream>, spec: ParamSpec,
                                    orders: seq<seq<string>>)
    requires AreOrders(orders, spec.dependencies)
    ensures var layers := EffectiveLayers(src, ns, ups, spec, orders);
            var r := Resolve(src, ns, ups, spec, orders);
            && (r.Resolved? <==> layers.Some?)
            && (r.Resolved? ==> forall k ::
                  && (k in r.params <==> LastDefiner(layers.value, k) >= 0)
                  && (k in r.params ==> r.params[k] == layers.value[LastDefiner(layers.value, k)][k]))
  {
    var ext := ExternalLayers(src, ns, spec);
    if ext.Some? {
      var base := Overlay(ext.value) + spec.params;
      TakeDependenciesOverlays(ns, ups, spec.dependencies, orders, Going(base, []));
      var deps := DependencyLayers(ns, ups, spec.dependencies, orders);
      if deps.Some? {
        var layers := ext.value + [spec.params] + deps.value;
        OverlayConcat(ext.value + [spec.params], deps.value);
        OverlayConcat(ext.value, [spec.params]);
        OverlayOne(spec.params);
        forall k
          ensures k in Overlay(layers) <==> LastDefiner(layers, k) >= 0
          ensures k in Overlay(layers) ==> Overlay(layers)[k] == layers[LastDefiner(layers, k)][k]
        {
          OverlayTakesLastDefiner(layers, k);
        }
      }
    }
  }

  // ----- iteration order -----

  lemma {:induction false} PickWithout(order: seq<string>, table: Data, i: nat)
    requires i < |order| && forall k :: k in order ==> k in table
    ensures multiset(Pick(order, table)) ==
            multiset{table[order[i]]} + multiset(Pick(order[..i] + order[i + 1..], table))
  {
    var rest := order[..i] + order[i + 1..];
    if i == 0 {
      assert rest == order[1..];
    } else {
      PickWithout(order[1..], table, i - 1);
      assert rest[0] == order[0] && rest[1..] == order[1..][..i - 1] + order[1..][i..];
    }
  }

  lemma WithoutOne(s: seq<string>, i: nat)
    requires i < |s|
    ensures multiset(s[..i] + s[i + 1..]) == multiset(s) - multiset{s[i]}
  {
    assert s == s[..i] + [s[i]] + s[i + 1..];
  }

  lemma WithoutFirst(s: seq<string>)
    requires s != []
    ensures multiset(s[1..]) == multiset(s) - multiset{s[0]}
  {
    assert s == [s[0]] + s[1..];
  }

  lemma SameElements(a: seq<string>, b: seq<string>)
    requires multiset(a) == multiset(b)
    ensures |a| == |b| && forall k :: k in a <==> k in b
  {
    assert |multiset(a)| == |a| && |multiset(b)| == |b|;
    assert forall k :: k in a <==> k in multiset(a);
    assert forall k :: k in b <==> k in multiset(b);
  }

  lemma {:induction false} PickForgetsOrder(a: seq<string>, b: seq<string>, table: Data)
    requires multiset(a) == multiset(b) && forall k :: k in a ==> k in table
    ensures forall k :: k in b ==> k in table
    ensures multiset(Pick(a, table)) == multiset(Pick(b, table))
  {
    SameElements(a, b);
    if a != [] {
      assert a[0] in b;
      var i :| 0 <= i < |b| && b[i] == a[0];
      WithoutFirst(a);
      WithoutOne(b, i);
      PickForgetsOrder(a[1..], b[..i] + b[i + 1..], table);
      PickWithout(b, table, i);
      PickWithout(a, table, 0);
      assert a[..0] + a[1..] == a[1..];
    }
  }

  lemma {:induction false} OrdersArePermutations(a: seq<string>, b: seq<string>, keys: set<string>)
    requires IsOrder(a, keys) && IsOrder(b, keys)
    ensures multiset(a) == multiset(b)
  {
    OrderCounts(a, keys);
    OrderCounts(b, keys);
  }

  lemma {:induction false} OrderCounts(a: seq<string>, keys: set<string>)
    requires IsOrder(a, keys)
    ensures multiset(a) == multiset(keys)
  {
    if a != [] {
      assert a == [a[0]] + a[1..];
      OrderCounts(a[1..], keys - {a[0]});
      assert keys == {a[0]} + (keys - {a[0]});
    }
  }

  /** The hash string of external parameters does not depend on the order in which the map was walked. */
  lemma ExternalHashForgetsOrder(m: Data, order: seq<string>)
    requires IsOrder(order, m.Keys) && m != map[]
    ensures ExternalHash(m) == "ext:" + Join(Sort(Pick(order, EntryTable(m))))
  {
    var other := SomeOrder(m.Keys);
    OrdersArePermutations(order, other, m.Keys);
    PickForgetsOrder(order, other, EntryTable(m));
    SortForgetsOrder(Pick(order, EntryTable(m)), Pick(other, EntryTable(m)));
  }

  /** Two outputs with different values are sent to one parameter. */
  predicate Conflict(outputs: map<string, string>, values: Data) {
    exists a, b :: a in outputs && b in outputs && outputs[a] == outputs[b]
      && a in values && b in values && values[a] != values[b]
  }

  /** The hash part of each output. */
  function PartTable(outputs: map<string, string>, values: Data): Data {
    map o | o in outputs && o in values :: outputs[o] + "=" + values[o]
  }

  lemma {:induction false} TakeOutputsParts(order: seq<string>, outputs: map<string, string>, values: Data, p: Progress)
    requires p.Going? && forall o :: o in order ==> o in outputs && o in values
    ensures TakeOutputs(order, outputs, values, p).Going?
    ensures TakeOutputs(order, outputs, values, p).parts == p.parts + Pick(order, PartTable(outputs, values))
  {
    if order == [] {
      assert p.parts + [] == p.parts;
    } else {
      var param, val := outputs[order[0]], values[order[0]];
      var part := param + "=" + val;
      TakeOutputsParts(order[1..], outputs, values, Going(p.params[param := val], p.parts + [part]));
      assert p.parts + [part] + Pick(order[1..], PartTable(outputs, values)) ==
             p.parts + ([part] + Pick(order[1..], PartTable(outputs, values)));
    }
  }

  /** Without a conflict each written parameter has the one value sent to it. */
  lemma {:induction false} TakeOutputsWrites(order: seq<string>, outputs: map<string, string>, values: Data,
                                             p: Progress)
    requires p.Going? && !Conflict(outputs, values) && forall o :: o in order ==> o in outputs && o in values
    ensures var q := TakeOutputs(order, outputs, values, p);
            && q.Going?
            && (forall o :: o in order ==> outputs[o] in q.params && q.params[outputs[o]] == values[o])
            && (forall k :: k in q.params <==> k in p.params || exists o :: o in order && outputs[o] == k)
            && (forall k :: k in p.params && (forall o :: o in order ==> outputs[o] != k) ==>
                  q.params[k] == p.params[k])
  {
    if order != [] {
      var param, val := outputs[order[0]], values[order[0]];
      var next := Going(p.params[param := val], p.parts + [param + "=" + val]);
      TakeOutputsWrites(order[1..], outputs, values, next);
      var q := TakeOutputs(order, outputs, values, p);
      assert order == [order[0]] + order[1..];
      if exists o :: o in order[1..] && outputs[o] == param {
        var o :| o in order[1..] && outputs[o] == param;
        assert values[o] == val;
      }
    }
  }

  ghost predicate SameUpToPartOrder(p: Progress, q: Progress) {
    match (p, q)
    case (Stuck, Stuck) => true
    case (Going(a, ps), Going(b, qs)) => a == b && multiset(ps) == multiset(qs)
    case _ => false
  }

  lemma WrittenParamsForgetOrder(a: seq<string>, b: seq<string>, outputs: map<string, string>, values: Data,
                                 p: Progress, q: Progress)
    requires IsOrder(a, outputs.Keys) && IsOrder(b, outputs.Keys) && !Conflict(outputs, values)
    requires outputs.Keys <= values.Keys && p.Going? && q.Going? && p.params == q.params
    ensures var pa, pb := TakeOutputs(a, outputs, values, p), TakeOutputs(b, outputs, values, q);
            pa.Going? && pb.Going? && pa.params == pb.params
  {
    hide TakeOutputs, Conflict;
    TakeOutputsWrites(a, outputs, values, p);
    TakeOutputsWrites(b, outputs, values, q);
    var pa, pb := TakeOutputs(a, outputs, values, p).params, TakeOutputs(b, outputs, values, q).params;
    forall k
      ensures k in pa <==> k in pb
      ensures k in pa ==> pa[k] == pb[k]
    {
      if exists o :: o in outputs && outputs[o] == k {
        var o :| o in outputs && outputs[o] == k;
        assert o in a && o in b;
      } else {
        assert forall o :: o in a || o in b ==> o in outputs;
      }
    }
    assert pa.Keys == pb.Keys;
  }

  lemma OutputOrderForgotten(a: seq<string>, b: seq<string>, outputs: map<string, string>, values: Data, p: Progress,
                             q: Progress)
    requires IsOrder(a, outputs.Keys) && IsOrder(b, outputs.Keys) && !Conflict(outputs, values)
    requires SameUpToPartOrder(p, q)
    ensures SameUpToPartOrder(TakeOutputs(a, outputs, values, p), TakeOutputs(b, outputs, values, q))
  {
    if p.Going? {
      if outputs.Keys <= values.Keys {
        WrittenParamsForgetOrder(a, b, outputs, values, p, q);
        hide TakeOutputs, Conflict;
        TakeOutputsParts(a, outputs, values, p);
        TakeOutputsParts(b, outputs, values, q);
        OrdersArePermutations(a, b, outputs.Keys);
        PickForgetsOrder(a, b, PartTable(outputs, values));
      } else {
        hide TakeOutputs, Conflict;
        TakeOutputsOverlays(a, outputs, values, p);
        TakeOutputsOverlays(b, outputs, values, q);
        var o :| o in outputs && o !in values;
        assert o in a && o in b;
      }
    } else {
      assert p.Stuck? && q.Stuck?;
    }
  }

  /** No dependency sends two different values to one parameter. */
  predicate NoConflicts(ns: string, ups: map<Key, Upstream>, deps: seq<Dependency>) {
    forall i :: 0 <= i < |deps| ==>
      var k := deps[i].project.In(ns);
      k in ups ==> !Conflict(deps[i].outputs, ups[k].outputs)
  }

  lemma {:induction false} DependencyOrderForgotten(ns: string, ups: map<Key, Upstream>, deps: seq<Dependency>,
                                                    a: seq<seq<string>>, b: seq<seq<string>>, p: Progress)
    requires AreOrders(a, deps) && AreOrders(b, deps) && NoConflicts(ns, ups, deps)
    ensures SameUpToPartOrder(TakeDependencies(ns, ups, deps, a, p), TakeDependencies(ns, ups, deps, b, p))
  {
    hide Conflict, TakeOutputs;
    if deps != [] {
      var n := |deps| - 1;
      assert NoConflicts(ns, ups, deps[..n]);
      DependencyOrderForgotten(ns, ups, deps[..n], a[..n], b[..n], p);
      var k := deps[n].project.In(ns);
      if k in ups {
        OutputOrderForgotten(a[n], b[n], deps[n].outputs, ups[k].outputs,
                             TakeDependencies(ns, ups, deps[..n], a[..n], p),
                             TakeDependencies(ns, ups, deps[..n], b[..n], p));
      }
    }
  }

  /** Every iteration order gives the same params, hash string and failure if no dependency conflicts with itself. */
  lemma IterationOrderNeverMatters(src: Sources, ns: string, ups: map<Key, Upstream>, spec: ParamSpec,
                                   a: seq<seq<string>>, b: seq<seq<string>>)
    requires AreOrders(a, spec.dependencies) && AreOrders(b, spec.dependencies)
    requires NoConflicts(ns, ups, spec.dependencies)
    ensures Resolve(src, ns, ups, spec, a) == Resolve(src, ns, ups, spec, b)
  {
    var ext := ExternalLayers(src, ns, spec);
    if ext.Some? {
      var p := Going(Overlay(ext.value) + spec.params, []);
      DependencyOrderForgotten(ns, ups, spec.dependencies, a, b, p);
      var qa := TakeDependencies(ns, ups, spec.dependencies, a, p);
      var qb := TakeDependencies(ns, ups, spec.dependencies, b, p);
      if qa.Going? {
        SortForgetsOrder(qa.parts, qb.parts);
      }
    }
  }

  lemma {:induction false} TakeOutputsConcat(a: seq<string>, b: seq<string>, outputs: map<string, string>,
                                             values: Data, p: Progress)
    requires forall o :: o in a + b ==> o in outputs
    requires forall o :: o in a ==> o in outputs
    ensures TakeOutputs(a + b, outputs, values, p) ==
            TakeOutputs(b, outputs, values, TakeOutputs(a, outputs, values, p))
  {
    if a == [] {
      assert a + b == b;
    } else {
      assert (a + b)[1..] == a[1..] + b;
      if p.Going? && a[0] in values {
        var param, val := outputs[a[0]], values[a[0]];
        TakeOutputsConcat(a[1..], b, outputs, values, Going(p.params[param := val], p.parts + [param + "=" + val]));
      }
    }
  }

  lemma LastOutputWins(order: seq<string>, last: string, outputs: map<string, string>, values: Data, p: Progress)
    requires p.Going? && last in outputs && last in values && forall o :: o in order ==> o in outputs && o in values
    ensures var q := TakeOutputs(order + [last], outputs, values, p);
            q.Going? && outputs[last] in q.params && q.params[outputs[last]] == values[last]
  {
    assert forall o :: o in order + [last] ==> o in outputs;
    TakeOutputsConcat(order, [last], outputs, values, p);
    TakeOutputsParts(order, outputs, values, p);
    var r := TakeOutputs(order, outputs, values, p);
    assert [last][1..] == [];
    assert TakeOutputs([last], outputs, values, r) ==
           Going(r.params[outputs[last] := values[last]], r.parts + [outputs[last] + "=" + values[last]]);
  }

  ghost predicate OrderMatters(outputs: map<string, string>, values: Data, p: Progress) {
    exists a, b ::
      && IsOrder(a, outputs.Keys) && IsOrder(b, outputs.Keys)
      && TakeOutputs(a, outputs, values, p).Going? && TakeOutputs(b, outputs, values, p).Going?
      && TakeOutputs(a, outputs, values, p).params != TakeOutputs(b, outputs, values, p).params
  }

  ghost function EndingIn(x: string, y: string, keys: set<string>): (order: seq<string>)
    requires x in keys && y in keys && x != y
    ensures IsOrder(order, keys)
  {
    SomeOrder(keys - {x, y}) + [x, y]
  }

  lemma EndingInWrites(x: string, y: string, outputs: map<string, string>, values: Data, p: Progress)
    requires p.Going? && outputs.Keys <= values.Keys
    requires x in outputs && y in outputs && x != y
    ensures var q := TakeOutputs(EndingIn(x, y, outputs.Keys), outputs, values, p);
            q.Going? && outputs[y] in q.params && q.params[outputs[y]] == values[y]
  {
    var front := SomeOrder(outputs.Keys - {x, y}) + [x];
    assert EndingIn(x, y, outputs.Keys) == front + [y];
    LastOutputWins(front, y, outputs, values, p);
  }

  lemma OrderMattersFor(x: string, y: string, outputs: map<string, string>, values: Data, p: Progress)
    requires p.Going? && outputs.Keys <= values.Keys
    requires x in outputs && y in outputs && outputs[x] == outputs[y] && values[x] != values[y]
    ensures OrderMatters(outputs, values, p)
  {
    hide TakeOutputs, EndingIn;
    EndingInWrites(x, y, outputs, values, p);
    EndingInWrites(y, x, outputs, values, p);
    var a, b := EndingIn(x, y, outputs.Keys), EndingIn(y, x, outputs.Keys);
    assert TakeOutputs(a, outputs, values, p).params != TakeOutputs(b, outputs, values, p).params;
  }

  /** The condition is exact: the params of one dependency depend on the order if and only if it has a conflict. */
  lemma OrderMattersIffConflict(outputs: map<string, string>, values: Data, p: Progress)
    requires p.Going? && outputs.Keys <= values.Keys
    ensures OrderMatters(outputs, values, p) <==> Conflict(outputs, values)
  {
    if Conflict(outputs, values) {
      var x, y :| x in outputs && y in outputs && outputs[x] == outputs[y] && values[x] != values[y];
      OrderMattersFor(x, y, outputs, values, p);
    } else {
      forall a, b | IsOrder(a, outputs.Keys) && IsOrder(b, outputs.Keys)
        ensures var pa, pb := TakeOutputs(a, outputs, values, p), TakeOutputs(b, outputs, values, p);
                pa.Going? && pb.Going? && pa.params == pb.params
      {
        WrittenParamsForgetOrder(a, b, outputs, values, p, p);
      }
    }
  }

  // ----- the hash of the desired state -----

  /** The program and project fields that computeAppliedHash reads beside parameters and the hash string. */
  datatype DesiredState = DesiredState(
    git: bool, url: string, gitRef: string, path: string,
    providersTf: string, programHcl: string, backendTf: string, workspace: string,
    ignoreProviders: bool, additionalProviders: string, validation: Option<string>)

  /** The digested string; `json` is the JSON encoding of the parameters. */
  function HashInput(d: DesiredState, params: Data, depHash: string, json: Data -> string): string {
    var vars := json(params) + "\n";
    (if d.git then d.url + "|" + d.gitRef + "|" + d.path + d.backendTf + vars + d.workspace
     else d.providersTf + d.backendTf + d.programHcl + vars + d.workspace)
    + (if depHash != "" then "|deps:" + depHash else "")
    + (if d.ignoreProviders then "|ignoreProviders" else "")
    + (if d.additionalProviders != "" then "|additionalProviders:" + d.additionalProviders else "")
    + (match d.validation case None => "" case Some(v) => "|validation:" + v)
  }

  // ----- watches -----

  /** projectReferencesConfigMap. */
  predicate ReferencesConfigMap(spec: ParamSpec, own: string, k: Key) {
    || (exists i :: 0 <= i < |spec.valuesFrom|
                    && spec.valuesFrom[i].configMap != "" && spec.valuesFrom[i].configMap == k.name && own == k.ns)
    || (exists i :: 0 <= i < |spec.paramFrom|
                    && spec.paramFrom[i].configMap.Some? && spec.paramFrom[i].configMap.value.In(own) == k)
    || (exists i :: 0 <= i < |spec.bindings|
                    && spec.bindings[i].configMapKey.Some?
                    && spec.bindings[i].configMapKey.value.name == k.name && own == k.ns)
  }

  /** projectReferencesSecret. */
  predicate ReferencesSecret(spec: ParamSpec, own: string, k: Key) {
    || (exists i :: 0 <= i < |spec.valuesFrom|
                    && spec.valuesFrom[i].secret != "" && spec.valuesFrom[i].secret == k.name && own == k.ns)
    || (exists i :: 0 <= i < |spec.paramFrom|
                    && spec.paramFrom[i].secret.Some? && spec.paramFrom[i].secret.value.In(own) == k)
    || (exists i :: 0 <= i < |spec.bindings|
                    && spec.bindings[i].secretKey.Some?
                    && spec.bindings[i].secretKey.value.name == k.name && own == k.ns)
  }

  /** The match of findDependentProjects. */
  predicate DependsOn(spec: ParamSpec, own: string, k: Key) {
    exists i :: 0 <= i < |spec.dependencies| && spec.dependencies[i].project.In(own) == k
  }

  predicate AgreeOn<T(==)>(a: map<Key, T>, b: map<Key, T>, k: Key) {
    (k in a <==> k in b) && (k in a ==> a[k] == b[k])
  }

  /** Two clusters that no watch of this project tells apart. */
  ghost predicate Unwatched(spec: ParamSpec, own: string, src: Sources, ups: map<Key, Upstream>, src': Sources,
                            ups': map<Key, Upstream>) {
    forall k ::
      && (ReferencesConfigMap(spec, own, k) ==> AgreeOn(src.configMaps, src'.configMaps, k))
      && (ReferencesSecret(spec, own, k) ==> AgreeOn(src.secrets, src'.secrets, k))
      && (DependsOn(spec, own, k) ==> AgreeOn(ups, ups', k))
  }

  lemma {:induction false} DependenciesAgree(ns: string, ups: map<Key, Upstream>, ups': map<Key, Upstream>,
                                             deps: seq<Dependency>,
                                             orders: seq<seq<string>>, p: Progress)
    requires AreOrders(orders, deps)
    requires forall i :: 0 <= i < |deps| ==> AgreeOn(ups, ups', deps[i].project.In(ns))
    ensures TakeDependencies(ns, ups, deps, orders, p) == TakeDependencies(ns, ups', deps, orders, p)
  {
    if deps != [] {
      var n := |deps| - 1;
      DependenciesAgree(ns, ups, ups', deps[..n], orders[..n], p);
    }
  }

  lemma ExternalLayersAgree(spec: ParamSpec, ns: string, src: Sources, ups: map<Key, Upstream>, src': Sources,
                            ups': map<Key, Upstream>)
    requires Unwatched(spec, ns, src, ups, src', ups')
    ensures ExternalLayers(src, ns, spec) == ExternalLayers(src', ns, spec)
  {
    forall i | 0 <= i < |spec.valuesFrom|
      ensures ValuesFromEntry(src, ns, spec.valuesFrom[i]) == ValuesFromEntry(src', ns, spec.valuesFrom[i])
    {
      var e := spec.valuesFrom[i];
      assert e.configMap != "" ==> ReferencesConfigMap(spec, ns, Key(ns, e.configMap));
      assert e.secret != "" ==> ReferencesSecret(spec, ns, Key(ns, e.secret));
    }
    forall i | 0 <= i < |spec.paramFrom|
      ensures ParamFromEntry(src, ns, spec.paramFrom[i]) == ParamFromEntry(src', ns, spec.paramFrom[i])
    {
      var e := spec.paramFrom[i];
      assert e.configMap.Some? ==> ReferencesConfigMap(spec, ns, e.configMap.value.In(ns));
      assert e.secret.Some? ==> ReferencesSecret(spec, ns, e.secret.value.In(ns));
    }
    forall i | 0 <= i < |spec.bindings|
      ensures BindingEntry(src, ns, spec.bindings[i]) == BindingEntry(src', ns, spec.bindings[i])
    {
      var e := spec.bindings[i];
      assert e.configMapKey.Some? ==> ReferencesConfigMap(spec, ns, Key(ns, e.configMapKey.value.name));
      assert e.secretKey.Some? ==> ReferencesSecret(spec, ns, Key(ns, e.secretKey.value.name));
    }
    assert ValuesFromEntries(src, ns, spec.valuesFrom) == ValuesFromEntries(src', ns, spec.valuesFrom);
    assert ParamFromEntries(src, ns, spec.paramFrom) == ParamFromEntries(src', ns, spec.paramFrom);
    assert BindingEntries(src, ns, spec.bindings) == BindingEntries(src', ns, spec.bindings);
  }

  /** What no watch reports cannot change what resolution returns. */
  lemma WatchesCoverResolution(spec: ParamSpec, ns: string, src: Sources, ups: map<Key, Upstream>,
                               src': Sources, ups': map<Key, Upstream>, orders: seq<seq<string>>)
    requires AreOrders(orders, spec.dependencies) && Unwatched(spec, ns, src, ups, src', ups')
    ensures Resolve(src, ns, ups, spec, orders) == Resolve(src', ns, ups', spec, orders)
  {
    ExternalLayersAgree(spec, ns, src, ups, src', ups');
    forall i | 0 <= i < |spec.dependencies|
      ensures AgreeOn(ups, ups', spec.dependencies[i].project.In(ns))
    {
      assert DependsOn(spec, ns, spec.dependencies[i].project.In(ns));
    }
    var ext := ExternalLayers(src, ns, spec);
    if ext.Some? {
      DependenciesAgree(ns, ups, ups', spec.dependencies, orders, Going(Overlay(ext.value) + spec.params, []));
    }
  }
}
