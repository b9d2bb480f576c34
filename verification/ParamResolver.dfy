/**
 The resolvers of controllers/params.go as they run: maps updated entry by entry, each map walked in whatever order
 the runtime picks, the hash parts appended to a slice and sorted.
 */
module ParamResolver {
  import opened Wrappers
  import opened Api
  import opened Params
  import opened ParamLaws

  /** The merged value of layers that could be read. */
  function Merged(base: Data, layers: Option<seq<Data>>): Option<Data> {
    match layers
    case None => None
    case Some(ls) => Some(base + Overlay(ls))
  }

  lemma {:induction false} ChainFails(entries: seq<Option<seq<Data>>>, i: nat)
    requires i < |entries| && entries[i].None?
    ensures Chain(entries).None?
  {
    var n := |entries| - 1;
    if i < n {
      ChainFails(entries[..n], i);
    }
  }

  lemma PlusAssociates(a: Data, b: Data, c: Data)
    ensures a + (b + c) == a + b + c
  {
  }

  lemma ChainSnoc(entries: seq<Option<seq<Data>>>, i: nat)
    requires i < |entries|
    ensures Chain(entries[..i + 1]) == Both(Chain(entries[..i]), entries[i])
  {
    assert entries[..i + 1][..i] == entries[..i];
  }

  /** One more entry with a ConfigMap part and a Secret part. */
  lemma ChainExtends(base: Data, entries: seq<Option<seq<Data>>>, i: nat, cm: Option<seq<Data>>,
                     secret: Option<seq<Data>>)
    requires i < |entries| && entries[i] == Both(cm, secret) && cm.Some? && secret.Some?
    requires Chain(entries[..i]).Some?
    ensures Merged(base, Chain(entries[..i + 1])) ==
            Some(Merged(base, Chain(entries[..i])).value + Overlay(cm.value) + Overlay(secret.value))
  {
    hide Chain, Overlay;
    ChainSnoc(entries, i);
    var before := Chain(entries[..i]).value;
    OverlayConcat(before, cm.value + secret.value);
    OverlayConcat(cm.value, secret.value);
    PlusAssociates(base, Overlay(before), Overlay(cm.value) + Overlay(secret.value));
    PlusAssociates(base + Overlay(before), Overlay(cm.value), Overlay(secret.value));
  }

  /** Every entry of a source is written over what is resolved so far, in whatever order they come. */
  method CopyInto(resolved: Data, data: Data) returns (r: Data)
    ensures r == resolved + data
  {
    r := resolved;
    var left := data.Keys;
    while left != {}
      invariant left <= data.Keys
      invariant r == resolved + map k | k in data && k !in left :: data[k]
      decreases left
    {
      var k :| k in left;
      r := r[k := data[k]];
      left := left - {k};
    }
  }

  method ReadWhole(table: map<Key, Data>, ref: Option<Key>, resolved: Data) returns (ok: bool, r: Data)
    ensures ok <==> Whole(table, ref).Some?
    ensures ok ==> r == resolved + Overlay(Whole(table, ref).value)
  {
    r := resolved;
    match ref {
      case None =>
        ok := true;
        OverlayNone();
      case Some(k) =>
        ok := k in table;
        if ok {
          r := CopyInto(resolved, table[k]);
          OverlayOne(table[k]);
        }
    }
  }

  method ReadSingle(table: map<Key, Data>, ns: string, ref: Option<KeyRef>, name: string,
                    resolved: Data) returns (ok: bool, r: Data)
    ensures ok <==> Single(table, ns, ref, name).Some?
    ensures ok ==> r == resolved + Overlay(Single(table, ns, ref, name).value)
  {
    r := resolved;
    match ref {
      case None =>
        ok := true;
        OverlayNone();
      case Some(kr) =>
        var k := Key(ns, kr.name);
        ok := k in table && kr.key in table[k];
        if ok {
          r := r[name := table[k][kr.key]];
          OverlayOne(map[name := table[k][kr.key]]);
        }
    }
  }

  method ResolveValuesFromSources(src: Sources, ns: string, es: seq<ValuesFrom>) returns (resolved: Option<Data>)
    ensures resolved == Merged(map[], Chain(ValuesFromEntries(src, ns, es)))
  {
    ghost var entries := ValuesFromEntries(src, ns, es);
    var acc: Data := map[];
    for i := 0 to |es|
      invariant Merged(map[], Chain(entries[..i])) == Some(acc)
    {
      var e := es[i];
      var ok, withConfigMap := ReadWhole(src.configMaps, Named(ns, e.configMap), acc);
      if !ok {
        ChainFails(entries, i);
        return None;
      }
      ok, acc := ReadWhole(src.secrets, Named(ns, e.secret), withConfigMap);
      if !ok {
        ChainFails(entries, i);
        return None;
      }
      ChainExtends(map[], entries, i,
                   Whole(src.configMaps, Named(ns, e.configMap)), Whole(src.secrets, Named(ns, e.secret)));
    }
    assert entries[..|es|] == entries;
    resolved := Some(acc);
  }

  method ResolveParamFromSources(src: Sources, ns: string, es: seq<ParamFrom>) returns (resolved: Option<Data>)
    ensures resolved == Merged(map[], Chain(ParamFromEntries(src, ns, es)))
  {
    ghost var entries := ParamFromEntries(src, ns, es);
    var acc: Data := map[];
    for i := 0 to |es|
      invariant Merged(map[], Chain(entries[..i])) == Some(acc)
    {
      var e := es[i];
      var ok, withConfigMap := ReadWhole(src.configMaps, Referred(ns, e.configMap), acc);
      if !ok {
        ChainFails(entries, i);
        return None;
      }
      ok, acc := ReadWhole(src.secrets, Referred(ns, e.secret), withConfigMap);
      if !ok {
        ChainFails(entries, i);
        return None;
      }
      ChainExtends(map[], entries, i,
                   Whole(src.configMaps, Referred(ns, e.configMap)), Whole(src.secrets, Referred(ns, e.secret)));
    }
    assert entries[..|es|] == entries;
    resolved := Some(acc);
  }

  method ResolveParamBindingSources(src: Sources, ns: string, es: seq<ParamBinding>,
                                    resolved: Data) returns (r: Option<Data>)
    ensures r == Merged(resolved, Chain(BindingEntries(src, ns, es)))
  {
    ghost var entries := BindingEntries(src, ns, es);
    var acc := resolved;
    OverlayNone();
    assert resolved + map[] == resolved;
    for i := 0 to |es|
      invariant Merged(resolved, Chain(entries[..i])) == Some(acc)
    {
      var e := es[i];
      var ok, withConfigMap := ReadSingle(src.configMaps, ns, e.configMapKey, e.name, acc);
      if !ok {
        ChainFails(entries, i);
        return None;
      }
      ok, acc := ReadSingle(src.secrets, ns, e.secretKey, e.name, withConfigMap);
      if !ok {
        ChainFails(entries, i);
        return None;
      }
      ChainExtends(resolved, entries, i,
                   Single(src.configMaps, ns, e.configMapKey, e.name), Single(src.secrets, ns, e.secretKey, e.name));
    }
    assert entries[..|es|] == entries;
    r := Some(acc);
  }

  /** The hash of a resolved map, its entries collected in whatever order the map yields them. */
  method HashEntries(resolved: Data) returns (hash: string)
    ensures hash == ExternalHash(resolved)
  {
    if |resolved| == 0 {
      return "";
    }
    var parts: seq<string> := [];
    ghost var order: seq<string> := [];
    var left := resolved.Keys;
    while left != {}
      invariant left <= resolved.Keys && IsOrder(order, resolved.Keys - left)
      invariant parts == Pick(order, EntryTable(resolved))
      decreases left
    {
      var k :| k in left;
      PickSnoc(order, k, EntryTable(resolved));
      parts := parts + [k + "=" + resolved[k]];
      order := order + [k];
      left := left - {k};
    }
    assert resolved.Keys - {} == resolved.Keys;
    ExternalHashForgetsOrder(resolved, order);
    hash := "ext:" + Join(Sort(parts));
  }

  lemma {:induction false} PickSnoc(order: seq<string>, k: string, table: Data)
    requires k in table && forall j :: j in order ==> j in table
    ensures Pick(order + [k], table) == Pick(order, table) + [table[k]]
  {
    if order == [] {
      assert ([] + [k])[1..] == [];
    } else {
      assert (order + [k])[1..] == order[1..] + [k];
      PickSnoc(order[1..], k, table);
    }
  }

  method ResolveExternalParams(src: Sources, ns: string, spec: ParamSpec) returns (resolved: Option<Data>, hash: string)
    ensures resolved == Merged(map[], ExternalLayers(src, ns, spec))
    ensures resolved.Some? ==> hash == ExternalHash(resolved.value)
  {
    hash := "";
    ghost var vf := Chain(ValuesFromEntries(src, ns, spec.valuesFrom));
    ghost var pf := Chain(ParamFromEntries(src, ns, spec.paramFrom));
    ghost var pb := Chain(BindingEntries(src, ns, spec.bindings));
    var values := ResolveValuesFromSources(src, ns, spec.valuesFrom);
    if values.None? {
      return None, "";
    }
    var fromResolved := ResolveParamFromSources(src, ns, spec.paramFrom);
    if fromResolved.None? {
      return None, "";
    }
    var acc := CopyInto(values.value, fromResolved.value);
    resolved := ResolveParamBindingSources(src, ns, spec.bindings, acc);
    if resolved.None? {
      return None, "";
    }
    MergeExternal(vf.value, pf.value, pb.value);
    hash := HashEntries(resolved.value);
  }

  lemma MergeExternal(vf: seq<Data>, pf: seq<Data>, pb: seq<Data>)
    ensures map[] + Overlay(vf + pf + pb) == (map[] + Overlay(vf)) + (map[] + Overlay(pf)) + Overlay(pb)
  {
    hide Overlay;
    OverlayConcat(vf + pf, pb);
    OverlayConcat(vf, pf);
    assert forall m: Data :: map[] + m == m;
  }

  /** The outputs of one upstream, in the iteration order given. */
  method CopyOutputs(order: seq<string>, outputs: map<string, string>, values: Data, params: Data, parts: seq<string>)
    returns (ok: bool, p: Data, ps: seq<string>)
    requires IsOrder(order, outputs.Keys)
    ensures var q := TakeOutputs(order, outputs, values, Going(params, parts));
            if ok then q == Going(p, ps) else q.Stuck?
  {
    p, ps := params, parts;
    for i := 0 to |order|
      invariant TakeOutputs(order, outputs, values, Going(params, parts)) ==
                TakeOutputs(order[i..], outputs, values, Going(p, ps))
    {
      var output := order[i];
      assert order[i..][0] == output && order[i..][1..] == order[i + 1..];
      if output !in values {
        return false, p, ps;
      }
      var param, val := outputs[output], values[output];
      p := p[param := val];
      ps := ps + [param + "=" + val];
    }
    ok := true;
  }

  /** The loop over the dependencies. */
  method CopyUpstreams(ns: string, ups: map<Key, Upstream>, deps: seq<Dependency>, orders: seq<seq<string>>, base: Data)
    returns (ok: bool, params: Data, parts: seq<string>)
    requires AreOrders(orders, deps)
    ensures var q := TakeDependencies(ns, ups, deps, orders, Going(base, []));
            if ok then q == Going(params, parts) else q.Stuck?
  {
    ghost var start := Going(base, []);
    params, parts := base, [];
    for i := 0 to |deps|
      invariant TakeDependencies(ns, ups, deps[..i], orders[..i], start) == Going(params, parts)
    {
      var dep := deps[i];
      assert deps[..i + 1][..i] == deps[..i] && orders[..i + 1][..i] == orders[..i];
      var k := dep.project.In(ns);
      if k !in ups || !ups[k].succeeded {
        DependencyFails(ns, ups, deps, orders, i + 1, start);
        return false, params, parts;
      }
      ok, params, parts := CopyOutputs(orders[i], dep.outputs, ups[k].outputs, params, parts);
      if !ok {
        DependencyFails(ns, ups, deps, orders, i + 1, start);
        return;
      }
    }
    assert deps[..|deps|] == deps && orders[..|deps|] == orders;
    ok := true;
  }

  method ResolveDependencies(src: Sources, ns: string, ups: map<Key, Upstream>, spec: ParamSpec,
                             orders: seq<seq<string>>)
    returns (r: Resolution)
    requires AreOrders(orders, spec.dependencies)
    ensures r == Resolve(src, ns, ups, spec, orders)
  {
    var external, externalHash := ResolveExternalParams(src, ns, spec);
    if external.None? {
      return Unresolvable;
    }
    assert forall m: Data :: map[] + m == m;
    var base := CopyInto(external.value, spec.params);
    if |spec.dependencies| == 0 {
      return Resolved(base, externalHash);
    }
    var ok, params, parts := CopyUpstreams(ns, ups, spec.dependencies, orders, base);
    if !ok {
      return Waiting;
    }
    r := Resolved(params, CombinedHash(externalHash, parts));
  }

  lemma {:induction false} DependencyFails(ns: string, ups: map<Key, Upstream>, deps: seq<Dependency>,
                                           orders: seq<seq<string>>, i: nat, p: Progress)
    requires AreOrders(orders, deps) && i <= |deps|
    requires TakeDependencies(ns, ups, deps[..i], orders[..i], p).Stuck?
    ensures TakeDependencies(ns, ups, deps, orders, p).Stuck?
  {
    if i < |deps| {
      var n := |deps| - 1;
      assert deps[..n][..i] == deps[..i] && orders[..n][..i] == orders[..i];
      DependencyFails(ns, ups, deps[..n], orders[..n], i, p);
    } else {
      assert deps[..i] == deps && orders[..i] == orders;
    }
  }
}
