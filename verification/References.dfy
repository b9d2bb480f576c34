/** What the references of a spec mean: which of them have to exist, what each contributes, and that all are watched. */
module References {
  import opened Wrappers
  import opened Api
  import opened Params
  import opened ParamLaws
  import Moves

  function At(table: map<Key, Data>, wanted: bool, k: Key): Data {
    if wanted && k in table then table[k] else map[]
  }

  /** A ConfigMap or Secret of the project's namespace, by name. */
  function OfValues(src: Sources, ns: string, e: ValuesFrom): Data {
    At(src.configMaps, e.configMap != "", Key(ns, e.configMap)) + At(src.secrets, e.secret != "", Key(ns, e.secret))
  }

  /** One of any namespace. */
  function OfParams(src: Sources, ns: string, e: ParamFrom): Data {
    At(src.configMaps, e.configMap.Some?, e.configMap.GetOr(ObjectRef("", "")).In(ns))
    + At(src.secrets, e.secret.Some?, e.secret.GetOr(ObjectRef("", "")).In(ns))
  }

  function OfKey(table: map<Key, Data>, ns: string, ref: Option<KeyRef>, name: string): Data {
    if ref.Some? && Key(ns, ref.value.name) in table && ref.value.key in table[Key(ns, ref.value.name)]
    then map[name := table[Key(ns, ref.value.name)][ref.value.key]] else map[]
  }

  /** One key of one, under a parameter's name. */
  function OfBinding(src: Sources, ns: string, e: ParamBinding): Data {
    OfKey(src.configMaps, ns, e.configMapKey, e.name) + OfKey(src.secrets, ns, e.secretKey, e.name)
  }

  predicate HasKey(table: map<Key, Data>, ns: string, ref: KeyRef) {
    Key(ns, ref.name) in table && ref.key in table[Key(ns, ref.name)]
  }

  predicate ValuesThere(src: Sources, ns: string, e: ValuesFrom) {
    && (e.configMap != "" ==> Key(ns, e.configMap) in src.configMaps)
    && (e.secret != "" ==> Key(ns, e.secret) in src.secrets)
  }

  predicate ParamsThere(src: Sources, ns: string, e: ParamFrom) {
    && (e.configMap.Some? ==> e.configMap.value.In(ns) in src.configMaps)
    && (e.secret.Some? ==> e.secret.value.In(ns) in src.secrets)
  }

  predicate BindingThere(src: Sources, ns: string, e: ParamBinding) {
    && (e.configMapKey.Some? ==> HasKey(src.configMaps, ns, e.configMapKey.value))
    && (e.secretKey.Some? ==> HasKey(src.secrets, ns, e.secretKey.value))
  }

  /** Everything that the spec refers to is there. */
  predicate AllThere(src: Sources, ns: string, spec: ParamSpec) {
    && (forall i :: 0 <= i < |spec.valuesFrom| ==> ValuesThere(src, ns, spec.valuesFrom[i]))
    && (forall i :: 0 <= i < |spec.paramFrom| ==> ParamsThere(src, ns, spec.paramFrom[i]))
    && (forall i :: 0 <= i < |spec.bindings| ==> BindingThere(src, ns, spec.bindings[i]))
  }

  function AllValues(src: Sources, ns: string, es: seq<ValuesFrom>): seq<Data> {
    seq(|es|, i requires 0 <= i < |es| => OfValues(src, ns, es[i]))
  }

  function AllParams(src: Sources, ns: string, es: seq<ParamFrom>): seq<Data> {
    seq(|es|, i requires 0 <= i < |es| => OfParams(src, ns, es[i]))
  }

  function AllBindings(src: Sources, ns: string, es: seq<ParamBinding>): seq<Data> {
    seq(|es|, i requires 0 <= i < |es| => OfBinding(src, ns, es[i]))
  }

  /** What every reference contributes, in the order in which they are read. */
  function Contributions(src: Sources, ns: string, spec: ParamSpec): seq<Data> {
    AllValues(src, ns, spec.valuesFrom) + AllParams(src, ns, spec.paramFrom) + AllBindings(src, ns, spec.bindings)
  }

  // ----- one list of references -----

  lemma ValuesEntry(src: Sources, ns: string, e: ValuesFrom)
    ensures var r := ValuesFromEntry(src, ns, e);
            && (r.Some? <==> ValuesThere(src, ns, e))
            && (r.Some? ==> Overlay(r.value) == OfValues(src, ns, e))
  {
    var a, b := Whole(src.configMaps, Named(ns, e.configMap)), Whole(src.secrets, Named(ns, e.secret));
    WholeData(src.configMaps, Named(ns, e.configMap));
    WholeData(src.secrets, Named(ns, e.secret));
    if a.Some? && b.Some? {
      OverlayConcat(a.value, b.value);
    }
  }

  lemma WholeData(table: map<Key, Data>, ref: Option<Key>)
    ensures Whole(table, ref).Some? <==> (ref.Some? ==> ref.value in table)
    ensures Whole(table, ref).Some? ==> Overlay(Whole(table, ref).value) == At(table, ref.Some?, ref.GetOr(Key("", "")))
  {
    if ref.Some? && ref.value in table {
      OverlayOne(table[ref.value]);
    }
  }

  lemma ParamsEntry(src: Sources, ns: string, e: ParamFrom)
    ensures var r := ParamFromEntry(src, ns, e);
            && (r.Some? <==> ParamsThere(src, ns, e))
            && (r.Some? ==> Overlay(r.value) == OfParams(src, ns, e))
  {
    var a, b := Whole(src.configMaps, Referred(ns, e.configMap)), Whole(src.secrets, Referred(ns, e.secret));
    WholeData(src.configMaps, Referred(ns, e.configMap));
    WholeData(src.secrets, Referred(ns, e.secret));
    if a.Some? && b.Some? {
      OverlayConcat(a.value, b.value);
    }
  }

  lemma KeyData(table: map<Key, Data>, ns: string, ref: Option<KeyRef>, name: string)
    ensures Single(table, ns, ref, name).Some? <==> (ref.Some? ==> HasKey(table, ns, ref.value))
    ensures Single(table, ns, ref, name).Some? ==>
              Overlay(Single(table, ns, ref, name).value) == OfKey(table, ns, ref, name)
  {
    if ref.Some? && HasKey(table, ns, ref.value) {
      OverlayOne(map[name := table[Key(ns, ref.value.name)][ref.value.key]]);
    }
  }

  lemma BindingsEntry(src: Sources, ns: string, e: ParamBinding)
    ensures var r := BindingEntry(src, ns, e);
            && (r.Some? <==> BindingThere(src, ns, e))
            && (r.Some? ==> Overlay(r.value) == OfBinding(src, ns, e))
  {
    var a, b := Single(src.configMaps, ns, e.configMapKey, e.name), Single(src.secrets, ns, e.secretKey, e.name);
    KeyData(src.configMaps, ns, e.configMapKey, e.name);
    KeyData(src.secrets, ns, e.secretKey, e.name);
    if a.Some? && b.Some? {
      OverlayConcat(a.value, b.value);
    }
  }

  /** A chain is there when all its entries are, and lays each entry's data over those before. */
  lemma {:induction false} ChainData(entries: seq<Option<seq<Data>>>, data: seq<Data>)
    requires |data| == |entries|
    requires forall i :: 0 <= i < |entries| && entries[i].Some? ==> Overlay(entries[i].value) == data[i]
    ensures Chain(entries).Some? <==> forall i :: 0 <= i < |entries| ==> entries[i].Some?
    ensures Chain(entries).Some? ==> Overlay(Chain(entries).value) == Overlay(data)
  {
    if entries != [] {
      var n := |entries| - 1;
      ChainData(entries[..n], data[..n]);
      assert forall i :: 0 <= i < n ==> entries[i] == entries[..n][i];
      if Chain(entries).Some? {
        OverlayConcat(Chain(entries[..n]).value, entries[n].value);
        OverlayConcat(data[..n], [data[n]]);
        OverlayOne(data[n]);
        assert data == data[..n] + [data[n]];
      }
    }
  }

  lemma ValuesChain(src: Sources, ns: string, es: seq<ValuesFrom>)
    ensures var r := Chain(ValuesFromEntries(src, ns, es));
            && (r.Some? <==> forall i :: 0 <= i < |es| ==> ValuesThere(src, ns, es[i]))
            && (r.Some? ==> Overlay(r.value) == Overlay(AllValues(src, ns, es)))
  {
    hide OfValues, ValuesThere, Overlay, Chain;
    var entries, data := ValuesFromEntries(src, ns, es), AllValues(src, ns, es);
    forall i | 0 <= i < |es|
      ensures entries[i].Some? <==> ValuesThere(src, ns, es[i])
      ensures entries[i].Some? ==> Overlay(entries[i].value) == data[i]
    {
      ValuesEntry(src, ns, es[i]);
    }
    ChainData(entries, data);
  }

  lemma ParamsChain(src: Sources, ns: string, es: seq<ParamFrom>)
    ensures var r := Chain(ParamFromEntries(src, ns, es));
            && (r.Some? <==> forall i :: 0 <= i < |es| ==> ParamsThere(src, ns, es[i]))
            && (r.Some? ==> Overlay(r.value) == Overlay(AllParams(src, ns, es)))
  {
    hide OfParams, ParamsThere, Overlay, Chain;
    var entries, data := ParamFromEntries(src, ns, es), AllParams(src, ns, es);
    forall i | 0 <= i < |es|
      ensures entries[i].Some? <==> ParamsThere(src, ns, es[i])
      ensures entries[i].Some? ==> Overlay(entries[i].value) == data[i]
    {
      ParamsEntry(src, ns, es[i]);
    }
    ChainData(entries, data);
  }

  lemma BindingsChain(src: Sources, ns: string, es: seq<ParamBinding>)
    ensures var r := Chain(BindingEntries(src, ns, es));
            && (r.Some? <==> forall i :: 0 <= i < |es| ==> BindingThere(src, ns, es[i]))
            && (r.Some? ==> Overlay(r.value) == Overlay(AllBindings(src, ns, es)))
  {
    hide OfBinding, BindingThere, Overlay, Chain;
    var entries, data := BindingEntries(src, ns, es), AllBindings(src, ns, es);
    forall i | 0 <= i < |es|
      ensures entries[i].Some? <==> BindingThere(src, ns, es[i])
      ensures entries[i].Some? ==> Overlay(entries[i].value) == data[i]
    {
      BindingsEntry(src, ns, es[i]);
    }
    ChainData(entries, data);
  }

  /** External params can be read exactly when all references exist, and are what these contribute, in order. */
  lemma ExternalParamsAreTheReferences(src: Sources, ns: string, spec: ParamSpec)
    ensures ExternalLayers(src, ns, spec).Some? <==> AllThere(src, ns, spec)
    ensures AllThere(src, ns, spec) ==>
              Overlay(ExternalLayers(src, ns, spec).value) == Overlay(Contributions(src, ns, spec))
  {
    hide Overlay, Chain, ValuesThere, ParamsThere, BindingThere, AllValues, AllParams, AllBindings, ValuesFromEntries,
         ParamFromEntries, BindingEntries;
    ValuesChain(src, ns, spec.valuesFrom);
    ParamsChain(src, ns, spec.paramFrom);
    BindingsChain(src, ns, spec.bindings);
    var a, b := Chain(ValuesFromEntries(src, ns, spec.valuesFrom)), Chain(ParamFromEntries(src, ns, spec.paramFrom));
    var c := Chain(BindingEntries(src, ns, spec.bindings));
    var x, y := AllValues(src, ns, spec.valuesFrom), AllParams(src, ns, spec.paramFrom);
    if a.Some? && b.Some? && c.Some? {
      OverlayConcat(a.value, b.value);
      OverlayConcat(a.value + b.value, c.value);
      OverlayConcat(x, y);
      OverlayConcat(x + y, AllBindings(src, ns, spec.bindings));
    }
  }

  // ----- no watch is for nothing -----

  /** Without a ConfigMap, Secret or upstream project that a watch reports, nothing resolves. */
  lemma WatchedIsNeeded(spec: ParamSpec, ns: string, src: Sources, ups: map<Key, Upstream>, orders: seq<seq<string>>,
                        k: Key)
    requires AreOrders(orders, spec.dependencies)
    ensures ReferencesConfigMap(spec, ns, k) ==>
              Resolve(src.(configMaps := src.configMaps - {k}), ns, ups, spec, orders).Unresolvable?
    ensures ReferencesSecret(spec, ns, k) ==>
              Resolve(src.(secrets := src.secrets - {k}), ns, ups, spec, orders).Unresolvable?
    ensures DependsOn(spec, ns, k) ==> !Resolve(src, ns, ups - {k}, spec, orders).Resolved?
  {
    hide ExternalLayers, TakeDependencies, AreOrders, ExternalHash, CombinedHash, Overlay;
    if ReferencesConfigMap(spec, ns, k) {
      MissingConfigMap(spec, ns, src, k);
      ExternalParamsAreTheReferences(src.(configMaps := src.configMaps - {k}), ns, spec);
    }
    if ReferencesSecret(spec, ns, k) {
      MissingSecret(spec, ns, src, k);
      ExternalParamsAreTheReferences(src.(secrets := src.secrets - {k}), ns, spec);
    }
    if DependsOn(spec, ns, k) && Resolve(src, ns, ups - {k}, spec, orders).Resolved? {
      var start := Going(Overlay(ExternalLayers(src, ns, spec).value) + spec.params, []);
      Moves.TakenUpstreamsSucceeded(ns, ups - {k}, spec.dependencies, orders, start);
      assert false;
    }
  }

  lemma MissingConfigMap(spec: ParamSpec, ns: string, src: Sources, k: Key)
    requires ReferencesConfigMap(spec, ns, k)
    ensures !AllThere(src.(configMaps := src.configMaps - {k}), ns, spec)
  {
  }

  lemma MissingSecret(spec: ParamSpec, ns: string, src: Sources, k: Key)
    requires ReferencesSecret(spec, ns, k)
    ensures !AllThere(src.(secrets := src.secrets - {k}), ns, spec)
  {
  }
}
