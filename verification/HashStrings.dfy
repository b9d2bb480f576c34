/** What the hash strings of controllers/params.go tell apart: a constant would satisfy their other laws. */
module HashStrings {
  import opened Api
  import opened Params
  import opened ParamLaws
  import opened References

  // ----- joined parts -----

  lemma {:induction false} JoinFront(pre: seq<string>, rest: seq<string>)
    requires rest != []
    ensures Join(pre + rest) == (if pre == [] then "" else Join(pre) + ",") + Join(rest)
  {
    if pre == [] {
      assert pre + rest == rest;
    } else {
      assert (pre + rest)[1..] == pre[1..] + rest;
      JoinFront(pre[1..], rest);
      if |pre| > 1 {
        assert pre[0] + "," + ((Join(pre[1..]) + ",") + Join(rest)) ==
               ((pre[0] + "," + Join(pre[1..])) + ",") + Join(rest);
      }
    }
  }

  lemma SameFront(a: string, x: string, y: string)
    ensures a + x == a + y <==> x == y
  {
    assert (a + x)[|a|..] == x && (a + y)[|a|..] == y;
  }

  lemma SameBack(x: string, y: string, b: string)
    ensures x + b == y + b <==> x == y
  {
    if x + b == y + b {
      assert |x| == |y|;
      assert (x + b)[..|x|] == x && (y + b)[..|y|] == y;
    }
  }

  /** One part alone shows. */
  lemma JoinShows(pre: seq<string>, a: string, b: string, post: seq<string>)
    ensures Join(pre + [a] + post) == Join(pre + [b] + post) <==> a == b
  {
    hide Join;
    assert pre + [a] + post == pre + ([a] + post) && pre + [b] + post == pre + ([b] + post);
    JoinFront(pre, [a] + post);
    JoinFront(pre, [b] + post);
    SameFront(if pre == [] then "" else Join(pre) + ",", Join([a] + post), Join([b] + post));
    JoinHead(a, post);
    JoinHead(b, post);
    SameBack(a, b, if post == [] then "" else "," + Join(post));
  }

  lemma JoinHead(a: string, post: seq<string>)
    ensures Join([a] + post) == a + if post == [] then "" else "," + Join(post)
  {
    assert post != [] ==> ([a] + post)[1..] == post;
  }

  // ----- sorted entries -----

  /** Entries of different keys without '=' are ordered by their keys alone. */
  lemma {:induction false} KeysDecide(k: string, l: string, v: string, v': string, x: string)
    requires k != l && '=' !in k && '=' !in l
    ensures Before(k + "=" + v, l + "=" + x) <==> Before(k + "=" + v', l + "=" + x)
  {
    if k != "" && l != "" && k[0] == l[0] {
      assert k == [k[0]] + k[1..] && l == [l[0]] + l[1..];
      KeysDecide(k[1..], l[1..], v, v', x);
      assert (k + "=" + v)[1..] == k[1..] + "=" + v && (k + "=" + v')[1..] == k[1..] + "=" + v';
      assert (l + "=" + x)[1..] == l[1..] + "=" + x;
    } else {
      assert k != "" ==> k[0] in k;
      assert l != "" ==> l[0] in l;
      assert (k + "=" + v)[0] == (k + "=")[0] == (k + "=" + v')[0] && (l + "=" + x)[0] == (l + "=")[0];
    }
  }

  /** Two strings that compare alike with all others are inserted at the same place. */
  lemma {:induction false} InsertedAlike(a: string, b: string, s: seq<string>) returns (pre: seq<string>,
                                                                                        post: seq<string>)
    requires forall r :: r in s ==> (Before(a, r) <==> Before(b, r))
    ensures Insert(a, s) == pre + [a] + post && Insert(b, s) == pre + [b] + post
  {
    hide Before;
    if s == [] || Before(a, s[0]) {
      pre, post := [], s;
      assert s != [] ==> s[0] in s;
    } else {
      pre, post := InsertedAlike(a, b, s[1..]);
      assert s[0] in s;
      pre := [s[0]] + pre;
    }
  }

  lemma {:induction false} PickEntries(order: seq<string>, m: Data, n: Data)
    requires forall k :: k in order ==> k in m && k in n && m[k] == n[k]
    ensures Pick(order, EntryTable(m)) == Pick(order, EntryTable(n))
    ensures forall e :: e in Pick(order, EntryTable(m)) ==> exists k :: k in order && e == k + "=" + m[k]
  {
    if order != [] {
      PickEntries(order[1..], m, n);
      assert order == [order[0]] + order[1..];
    }
  }

  /** The sorted entries with one of them set apart. */
  lemma SetApart(m: Data, k: string, rest: seq<string>)
    requires k in m && IsOrder(rest, m.Keys - {k})
    ensures ExternalHash(m) == "ext:" + Join(Insert(k + "=" + m[k], Sort(Pick(rest, EntryTable(m)))))
  {
    hide Join, Insert;
    assert IsOrder([k] + rest, m.Keys);
    ExternalHashForgetsOrder(m, [k] + rest);
    assert ([k] + rest)[1..] == rest;
  }

  /** Exchanging one of the parts for one that compares alike with all others shows in the sorted string. */
  lemma SortedJoinShows(a: string, b: string, others: seq<string>)
    requires forall r :: r in others ==> (Before(a, r) <==> Before(b, r))
    ensures Join(Sort([a] + others)) == Join(Sort([b] + others)) <==> a == b
  {
    assert ([a] + others)[1..] == others && ([b] + others)[1..] == others;
    var s := Sort(others);
    SortSorts(others);
    hide Join, Before, Insert;
    forall r | r in s
      ensures Before(a, r) <==> Before(b, r)
    {
      assert r in multiset(s) && r in others;
    }
    var pre, post := InsertedAlike(a, b, s);
    JoinShows(pre, a, b, post);
  }

  ghost predicate HasOtherKey(part: string, k: string) {
    exists l, x :: l != k && '=' !in l && part == l + "=" + x
  }

  lemma OtherKeysDecide(k: string, v: string, v': string, part: string)
    requires '=' !in k && HasOtherKey(part, k)
    ensures Before(k + "=" + v, part) <==> Before(k + "=" + v', part)
  {
    var l, x :| l != k && '=' !in l && part == l + "=" + x;
    KeysDecide(k, l, v, v', x);
  }

  /** Sorting does not tell where the part has stood. */
  lemma SortedFromFront(parts: seq<string>, i: nat, part: string)
    requires i < |parts|
    ensures Sort(parts[i := part]) == Sort([part] + (parts[..i] + parts[i + 1..]))
  {
    hide Sort;
    assert parts[i := part] == parts[..i] + [part] + parts[i + 1..];
    SortForgetsOrder([part] + (parts[..i] + parts[i + 1..]), parts[i := part]);
  }

  /** Of parts with a key before their first '=', one changed value shows if no other part has its key. */
  lemma OneValueShows(parts: seq<string>, i: nat, k: string, v: string, v': string)
    requires i < |parts| && parts[i] == k + "=" + v && '=' !in k
    requires forall j :: 0 <= j < |parts| && j != i ==> HasOtherKey(parts[j], k)
    ensures Join(Sort(parts[i := k + "=" + v'])) == Join(Sort(parts)) <==> v' == v
  {
    hide Join, Sort, Before, HasOtherKey;
    var others := parts[..i] + parts[i + 1..];
    forall r | r in others
      ensures Before(k + "=" + v, r) <==> Before(k + "=" + v', r)
    {
      OtherKeysDecide(k, v, v', r);
    }
    SortedJoinShows(k + "=" + v, k + "=" + v', others);
    SortedFromFront(parts, i, k + "=" + v);
    SortedFromFront(parts, i, k + "=" + v');
    assert parts[i := parts[i]] == parts;
    SameFront(k + "=", v, v');
  }

  /** A changed value of one external parameter changes the hash string. */
  lemma ExternalHashShowsValue(m: Data, k: string, v: string)
    requires k in m && forall l :: l in m ==> '=' !in l
    ensures ExternalHash(m[k := v]) == ExternalHash(m) <==> v == m[k]
  {
    assert forall l :: l in m ==> l in EntryTable(m);
    hide Join, Before, ExternalHash, Sort, EntryTable, Insert;
    var n := m[k := v];
    var rest := SomeOrder(m.Keys - {k});
    assert n.Keys == m.Keys;
    SetApart(m, k, rest);
    SetApart(n, k, rest);
    PickEntries(rest, m, n);
    var others := Pick(rest, EntryTable(m));
    var a, b := k + "=" + m[k], k + "=" + v;
    forall r | r in others
      ensures Before(a, r) <==> Before(b, r)
    {
      var l :| l in rest && r == l + "=" + m[l];
      KeysDecide(k, l, m[k], v, m[l]);
    }
    SortedJoinShows(a, b, others);
    SameFront("ext:", Join(Sort([a] + others)), Join(Sort([b] + others)));
    SameFront(k + "=", m[k], v);
  }

  const OTHER := "a=1,a=2,a"

  lemma SwappedParts(x: string, y: string, z: string)
    requires Before(x, z) && !Before(y, z) && x + "," + z == z + "," + y
    ensures Join(Insert(x, Sort([z]))) == Join(Insert(y, Sort([z])))
  {
    hide Before;
    assert Sort([z]) == [z];
    assert Insert(x, [z]) == [x, z] && Insert(y, [z]) == [z, y];
    JoinHead(x, [z]);
    JoinHead(z, [y]);
    assert [x] + [z] == [x, z] && [z] + [y] == [z, y];
  }

  lemma {:induction false} PrefixComesFirst(x: string, more: string)
    ensures Before(x, x + more)
  {
    if x != "" {
      PrefixComesFirst(x[1..], more);
      assert (x + more)[1..] == x[1..] + more;
    }
  }

  lemma {:induction false} FirstDifferenceDecides(front: string, c: char, d: char, x: string, y: string)
    requires d < c
    ensures !Before(front + [c] + x, front + [d] + y)
  {
    var a, b := front + [c] + x, front + [d] + y;
    if front == "" {
      assert a[0] == c && b[0] == d;
    } else {
      FirstDifferenceDecides(front[1..], c, d, x, y);
      assert a[1..] == front[1..] + [c] + x && b[1..] == front[1..] + [d] + y;
    }
  }

  /** The hash string of two external parameters. */
  lemma TwoParams(k: string, v: string, l: string, u: string)
    requires k != l
    ensures ExternalHash(map[k := v, l := u]) == "ext:" + Join(Insert(k + "=" + v, Sort([l + "=" + u])))
  {
    hide Join, Insert, Sort;
    var m := map[k := v, l := u];
    SetApart(m, k, [l]);
    assert [l][1..] == [];
    assert Pick([l], EntryTable(m)) == [l + "=" + u];
  }

  /** A key with '=' can make a changed value of another one go unseen. */
  lemma EqualsSignsMayCancel()
    ensures ExternalHash(map["a" := "1,a=2", OTHER := "1"]) == ExternalHash(map["a" := "2,a=1", OTHER := "1"])
  {
    hide Join, Insert, Sort, Before, ExternalHash;
    assert |OTHER| != |"a"|;
    TwoParams("a", "1,a=2", OTHER, "1");
    TwoParams("a", "2,a=1", OTHER, "1");
    var x, y, z := "a" + "=" + "1,a=2", "a" + "=" + "2,a=1", OTHER + "=" + "1";
    assert z == x + ",a=1" && z == "a=" + ['1'] + ",a=2,a=1" && y == "a=" + ['2'] + ",a=1";
    PrefixComesFirst(x, ",a=1");
    FirstDifferenceDecides("a=", '2', '1', ",a=1", ",a=2,a=1");
    assert x + "," + z == z + "," + y;
    SwappedParts(x, y, z);
  }

  // ----- what goes into the hash string -----

  /** One part for each output of a dependency, in iteration order. */
  function PartsOf(order: seq<string>, outputs: map<string, string>, values: Data): seq<string>
    requires forall x :: x in order ==> x in outputs && x in values
  {
    seq(|order|, j requires 0 <= j < |order| => outputs[order[j]] + "=" + values[order[j]])
  }

  lemma {:induction false} TakenParts(order: seq<string>, outputs: map<string, string>, values: Data, p: Progress)
    requires p.Going? && forall x :: x in order ==> x in outputs
    ensures var q := TakeOutputs(order, outputs, values, p);
            q.Going? ==> && (forall x :: x in order ==> x in values)
                         && q.parts == p.parts + PartsOf(order, outputs, values)
  {
    if order != [] && order[0] in values {
      var param, val := outputs[order[0]], values[order[0]];
      TakenParts(order[1..], outputs, values, Going(p.params[param := val], p.parts + [param + "=" + val]));
      if forall x :: x in order[1..] ==> x in values {
        assert PartsOf(order, outputs, values) == [param + "=" + val] + PartsOf(order[1..], outputs, values);
      }
    }
  }

  /** Those of all dependencies. */
  function AllParts(ns: string, ups: map<Key, Upstream>, deps: seq<Dependency>, orders: seq<seq<string>>): seq<string>
    requires AreOrders(orders, deps)
    requires forall d :: d in deps ==>
               d.project.In(ns) in ups && forall x :: x in d.outputs ==> x in ups[d.project.In(ns)].outputs
  {
    if deps == [] then []
    else
      var n := |deps| - 1;
      AllParts(ns, ups, deps[..n], orders[..n])
      + PartsOf(orders[n], deps[n].outputs, ups[deps[n].project.In(ns)].outputs)
  }

  lemma {:induction false} AllTakenParts(ns: string, ups: map<Key, Upstream>, deps: seq<Dependency>,
                                         orders: seq<seq<string>>, p: Progress)
    requires AreOrders(orders, deps) && p.Going?
    ensures var q := TakeDependencies(ns, ups, deps, orders, p);
            q.Going? ==>
              && (forall d :: d in deps ==>
                    d.project.In(ns) in ups && forall x :: x in d.outputs ==> x in ups[d.project.In(ns)].outputs)
              && q.parts == p.parts + AllParts(ns, ups, deps, orders)
  {
    if deps != [] {
      var n := |deps| - 1;
      var q := TakeDependencies(ns, ups, deps[..n], orders[..n], p);
      AllTakenParts(ns, ups, deps[..n], orders[..n], p);
      var k := deps[n].project.In(ns);
      if q.Going? && k in ups && ups[k].succeeded {
        TakenParts(orders[n], deps[n].outputs, ups[k].outputs, q);
        assert deps == deps[..n] + [deps[n]];
      }
    }
  }

  /** The hash string is that of the external parameters and of one part for each output taken from a dependency. */
  lemma HashStringIsOfAllParts(src: Sources, ns: string, ups: map<Key, Upstream>, spec: ParamSpec,
                               orders: seq<seq<string>>)
    requires AreOrders(orders, spec.dependencies) && Resolve(src, ns, ups, spec, orders).Resolved?
    ensures AllThere(src, ns, spec)
    ensures forall d :: d in spec.dependencies ==>
              d.project.In(ns) in ups && forall x :: x in d.outputs ==> x in ups[d.project.In(ns)].outputs
    ensures Resolve(src, ns, ups, spec, orders).hash ==
            CombinedHash(ExternalHash(Overlay(Contributions(src, ns, spec))),
                         AllParts(ns, ups, spec.dependencies, orders))
  {
    hide AreOrders, TakeDependencies, ExternalLayers, ExternalHash, CombinedHash, Overlay, AllThere, Contributions,
         AllParts;
    ExternalParamsAreTheReferences(src, ns, spec);
    var external := Overlay(ExternalLayers(src, ns, spec).value);
    AllTakenParts(ns, ups, spec.dependencies, orders, Going(external + spec.params, []));
    var parts := AllParts(ns, ups, spec.dependencies, orders);
    assert [] + parts == parts;
  }

  /** Each half of the combined hash string shows. */
  lemma CombinedHashShows(external: string, other: string, parts: seq<string>, others: seq<string>)
    ensures CombinedHash(other, parts) == CombinedHash(external, parts) <==> other == external
    ensures CombinedHash(external, others) == CombinedHash(external, parts) <==> Join(Sort(others)) == Join(Sort(parts))
  {
    var p, q := Join(Sort(parts)), Join(Sort(others));
    hide Join, Sort;
    SameBack(other, external, "|" + p);
    assert other + "|" + p == other + ("|" + p) && external + "|" + p == external + ("|" + p);
    SameFront(external + "|", q, p);
  }
}
