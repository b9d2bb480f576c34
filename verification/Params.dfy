/** Parameter resolution of controllers/params.go: layered maps, cross-project dependencies and their hash string. */
module Params {
  import opened Wrappers
  import opened Api

  type Data = map<string, string>

  /** The ConfigMaps and Secrets of the cluster. */
  datatype Sources = Sources(configMaps: map<Key, Data>, secrets: map<Key, Data>)

  /** What a dependency reads of the project it names. */
  datatype Upstream = Upstream(succeeded: bool, outputs: Data)

  datatype Resolution =
    | Unresolvable  // an external source or key is missing: the reconcile fails
    | Waiting       // an upstream is missing, has not succeeded or lacks an output
    | Resolved(params: Data, hash: string)

  // ----- layers: what each reference contributes, lowest precedence first -----

  function Overlay(layers: seq<Data>): Data {
    if layers == [] then map[] else layers[0] + Overlay(layers[1..])
  }

  function Both(a: Option<seq<Data>>, b: Option<seq<Data>>): Option<seq<Data>> {
    if a.None? || b.None? then None else Some(a.value + b.value)
  }

  /** A reference to a whole ConfigMap or Secret. */
  function Whole(table: map<Key, Data>, ref: Option<Key>): Option<seq<Data>> {
    match ref
    case None => Some([])
    case Some(k) => if k in table then Some([table[k]]) else None
  }

  /** A reference to one key of a ConfigMap or Secret, bound to a parameter name. */
  function Single(table: map<Key, Data>, ns: string, ref: Option<KeyRef>, name: string): Option<seq<Data>> {
    match ref
    case None => Some([])
    case Some(r) =>
      var k := Key(ns, r.name);
      if k in table && r.key in table[k] then Some([map[name := table[k][r.key]]]) else None
  }

  function Named(ns: string, name: string): Option<Key> {
    if name == "" then None else Some(Key(ns, name))
  }

  function Referred(ns: string, ref: Option<ObjectRef>): Option<Key> {
    match ref
    case None => None
    case Some(r) => Some(r.In(ns))
  }

  function ValuesFromEntry(src: Sources, ns: string, e: ValuesFrom): Option<seq<Data>> {
    Both(Whole(src.configMaps, Named(ns, e.configMap)), Whole(src.secrets, Named(ns, e.secret)))
  }

  function ParamFromEntry(src: Sources, ns: string, e: ParamFrom): Option<seq<Data>> {
    Both(Whole(src.configMaps, Referred(ns, e.configMap)), Whole(src.secrets, Referred(ns, e.secret)))
  }

  function BindingEntry(src: Sources, ns: string, e: ParamBinding): Option<seq<Data>> {
    Both(Single(src.configMaps, ns, e.configMapKey, e.name), Single(src.secrets, ns, e.secretKey, e.name))
  }

  /** All layers of a list of references, or None if any of them cannot be read. */
  function Chain(entries: seq<Option<seq<Data>>>): Option<seq<Data>> {
    if entries == [] then Some([])
    else Both(Chain(entries[..|entries| - 1]), entries[|entries| - 1])
  }

  function ValuesFromEntries(src: Sources, ns: string, es: seq<ValuesFrom>): seq<Option<seq<Data>>> {
    seq(|es|, i requires 0 <= i < |es| => ValuesFromEntry(src, ns, es[i]))
  }

  function ParamFromEntries(src: Sources, ns: string, es: seq<ParamFrom>): seq<Option<seq<Data>>> {
    seq(|es|, i requires 0 <= i < |es| => ParamFromEntry(src, ns, es[i]))
  }

  function BindingEntries(src: Sources, ns: string, es: seq<ParamBinding>): seq<Option<seq<Data>>> {
    seq(|es|, i requires 0 <= i < |es| => BindingEntry(src, ns, es[i]))
  }

  function ExternalLayers(src: Sources, ns: string, spec: ParamSpec): Option<seq<Data>> {
    Both(Both(Chain(ValuesFromEntries(src, ns, spec.valuesFrom)), Chain(ParamFromEntries(src, ns, spec.paramFrom))),
         Chain(BindingEntries(src, ns, spec.bindings)))
  }

  // ----- hash strings -----

  predicate Before(a: string, b: string) {
    a == "" || (b != "" && (a[0] < b[0] || (a[0] == b[0] && Before(a[1..], b[1..]))))
  }

  function Insert(s: string, sorted: seq<string>): seq<string> {
    if sorted == [] || Before(s, sorted[0]) then [s] + sorted else [sorted[0]] + Insert(s, sorted[1..])
  }

  /** sort.Strings. */
  function Sort(ss: seq<string>): seq<string> {
    if ss == [] then [] else Insert(ss[0], Sort(ss[1..]))
  }

  function Join(ss: seq<string>): string {
    if ss == [] then "" else if |ss| == 1 then ss[0] else ss[0] + "," + Join(ss[1..])
  }

  /** A runtime's iteration order over a map's keys. */
  ghost predicate IsOrder(order: seq<string>, keys: set<string>) {
    && (forall k :: k in order <==> k in keys)
    && forall i, j :: 0 <= i < j < |order| ==> order[i] != order[j]
  }

  /** The table's values in the order of its keys. */
  function Pick(order: seq<string>, table: Data): seq<string>
    requires forall k :: k in order ==> k in table
  {
    if order == [] then [] else [table[order[0]]] + Pick(order[1..], table)
  }

  /** The hash part of each parameter. */
  function EntryTable(m: Data): Data {
    map k | k in m :: k + "=" + m[k]
  }

  ghost function SomeOrder(keys: set<string>): (order: seq<string>)
    ensures IsOrder(order, keys)
  {
    if keys == {} then []
    else
      var k :| k in keys;
      [k] + SomeOrder(keys - {k})
  }

  ghost function ExternalHash(m: Data): string {
    if m == map[] then "" else "ext:" + Join(Sort(Pick(SomeOrder(m.Keys), EntryTable(m))))
  }

  function CombinedHash(external: string, depParts: seq<string>): string {
    var depHash := Join(Sort(depParts));
    if external != "" && depHash != "" then external + "|" + depHash
    else if external != "" then external
    else depHash
  }

  // ----- dependencies -----

  datatype Progress = Stuck | Going(params: Data, parts: seq<string>)

  /** One dependency's outputs, taken in the given iteration order. */
  function TakeOutputs(order: seq<string>, outputs: map<string, string>, values: Data, p: Progress): Progress
    requires forall o :: o in order ==> o in outputs
  {
    if p.Stuck? || order == [] then p
    else if order[0] !in values then Stuck
    else
      var param, val := outputs[order[0]], values[order[0]];
      TakeOutputs(order[1..], outputs, values, Going(p.params[param := val], p.parts + [param + "=" + val]))
  }

  ghost predicate AreOrders(orders: seq<seq<string>>, deps: seq<Dependency>) {
    |orders| == |deps| && forall i :: 0 <= i < |deps| ==> IsOrder(orders[i], deps[i].outputs.Keys)
  }

  function TakeDependency(ns: string, ups: map<Key, Upstream>, dep: Dependency, order: seq<string>,
                          p: Progress): Progress
    requires IsOrder(order, dep.outputs.Keys)
  {
    var k := dep.project.In(ns);
    if k !in ups || !ups[k].succeeded then Stuck
    else TakeOutputs(order, dep.outputs, ups[k].outputs, p)
  }

  function TakeDependencies(ns: string, ups: map<Key, Upstream>, deps: seq<Dependency>, orders: seq<seq<string>>,
                            p: Progress): Progress
    requires AreOrders(orders, deps)
  {
    if deps == [] then p
    else
      var n := |deps| - 1;
      var q := TakeDependencies(ns, ups, deps[..n], orders[..n], p);
      if q.Stuck? then Stuck else TakeDependency(ns, ups, deps[n], orders[n], q)
  }

  /** resolveDependencies, with the iteration order of each dependency's outputs as an input. */
  ghost function Resolve(src: Sources, ns: string, ups: map<Key, Upstream>, spec: ParamSpec,
                         orders: seq<seq<string>>): Resolution
    requires AreOrders(orders, spec.dependencies)
  {
    match ExternalLayers(src, ns, spec)
    case None => Unresolvable
    case Some(layers) =>
      var external := Overlay(layers);
      match TakeDependencies(ns, ups, spec.dependencies, orders, Going(external + spec.params, []))
      case Stuck => Waiting
      case Going(params, parts) => Resolved(params, CombinedHash(ExternalHash(external), parts))
  }

  // ----- sorting -----

  ghost predicate Sorted(ss: seq<string>) {
    forall i, j :: 0 <= i < j < |ss| ==> Before(ss[i], ss[j])
  }

  lemma {:induction false} BeforeOrNot(a: string, b: string)
    ensures Before(a, b) || Before(b, a)
    ensures Before(a, b) && Before(b, a) ==> a == b
  {
    if a != "" && b != "" && a[0] == b[0] {
      BeforeOrNot(a[1..], b[1..]);
      assert a == [a[0]] + a[1..] && b == [b[0]] + b[1..];
    }
  }

  lemma {:induction false} BeforeIsTransitive(a: string, b: string, c: string)
    requires Before(a, b) && Before(b, c)
    ensures Before(a, c)
  {
    if a != "" && a[0] == b[0] == c[0] {
      BeforeIsTransitive(a[1..], b[1..], c[1..]);
    }
  }

  lemma {:induction false} InsertKeepsSorted(s: string, sorted: seq<string>)
    requires Sorted(sorted)
    ensures Sorted(Insert(s, sorted))
    ensures multiset(Insert(s, sorted)) == multiset{s} + multiset(sorted)
  {
    if sorted == [] {
    } else if Before(s, sorted[0]) {
      forall j | 0 <= j < |sorted|
        ensures Before(s, sorted[j])
      {
        if j > 0 {
          BeforeIsTransitive(s, sorted[0], sorted[j]);
        }
      }
    } else {
      BeforeOrNot(s, sorted[0]);
      var rest := Insert(s, sorted[1..]);
      InsertKeepsSorted(s, sorted[1..]);
      assert sorted == [sorted[0]] + sorted[1..];
      forall j | 0 <= j < |rest|
        ensures Before(sorted[0], rest[j])
      {
        assert rest[j] in multiset(rest);
        if rest[j] != s {
          assert rest[j] in sorted[1..];
        }
      }
    }
  }

  lemma {:induction false} SortSorts(ss: seq<string>)
    ensures Sorted(Sort(ss)) && multiset(Sort(ss)) == multiset(ss)
  {
    if ss != [] {
      SortSorts(ss[1..]);
      InsertKeepsSorted(ss[0], Sort(ss[1..]));
      assert ss == [ss[0]] + ss[1..];
    }
  }

  lemma SortedHeadsAgree(a: seq<string>, b: seq<string>)
    requires Sorted(a) && Sorted(b) && multiset(a) == multiset(b) && a != [] && b != []
    ensures a[0] == b[0]
  {
    hide Before;
    assert a[0] in multiset(b) && b[0] in multiset(a);
    var i :| 0 <= i < |b| && b[i] == a[0];
    var j :| 0 <= j < |a| && a[j] == b[0];
    if i > 0 && j > 0 {
      assert Before(b[0], b[i]) && Before(a[0], a[j]);
      BeforeOrNot(a[0], b[0]);
    }
  }

  lemma {:induction false} SortedIsUnique(a: seq<string>, b: seq<string>)
    requires Sorted(a) && Sorted(b) && multiset(a) == multiset(b)
    ensures a == b
  {
    hide Before;
    if a == [] || b == [] {
      assert |a| == |multiset(a)| && |b| == |multiset(b)|;
    } else {
      SortedHeadsAgree(a, b);
      assert a == [a[0]] + a[1..] && b == [b[0]] + b[1..];
      assert multiset(a[1..]) == multiset(a) - multiset{a[0]};
      assert multiset(b[1..]) == multiset(b) - multiset{b[0]};
      SortedIsUnique(a[1..], b[1..]);
    }
  }

  /** Sorting forgets the order in which the parts were collected. */
  lemma SortForgetsOrder(a: seq<string>, b: seq<string>)
    requires multiset(a) == multiset(b)
    ensures Sort(a) == Sort(b)
  {
    SortSorts(a);
    SortSorts(b);
    SortedIsUnique(Sort(a), Sort(b));
  }
}
