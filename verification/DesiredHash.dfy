/** What the digest of the desired state and the hash string of external parameters tell apart. */
module DesiredHash {
  import opened Wrappers
  import opened Api
  import opened Protocol
  import opened Params
  import opened ParamLaws
  import opened BoundedWork
  import opened HashStrings

  // ----- strings made of parts -----

  function Flat(parts: seq<string>): string {
    if parts == [] then "" else Flat(parts[..|parts| - 1]) + parts[|parts| - 1]
  }

  lemma FlatOne(parts: seq<string>, last: string)
    ensures Flat(parts + [last]) == Flat(parts) + last
  {
    assert (parts + [last])[..|parts|] == parts;
  }

  /** One part alone always shows, wherever it stands. */
  lemma {:induction false} PartShows(parts: seq<string>, i: nat, v: string)
    requires i < |parts|
    ensures Flat(parts[i := v]) == Flat(parts) <==> v == parts[i]
  {
    var n := |parts| - 1;
    var rest := parts[..n];
    if i == n {
      assert parts[n := v][..n] == rest;
      assert (Flat(rest) + v)[|Flat(rest)|..] == v && (Flat(rest) + parts[n])[|Flat(rest)|..] == parts[n];
    } else {
      PartShows(rest, i, v);
      var other := parts[i := v][..n];
      assert other == rest[i := v];
      if Flat(other) + parts[n] == Flat(rest) + parts[n] {
        assert |Flat(other)| == |Flat(rest)|;
        assert (Flat(other) + parts[n])[..|Flat(rest)|] == Flat(other);
        assert (Flat(rest) + parts[n])[..|Flat(rest)|] == Flat(rest);
      }
    }
  }

  function DependencyPart(depHash: string): string {
    if depHash != "" then "|deps:" + depHash else ""
  }

  function IgnorePart(d: DesiredState): string {
    if d.ignoreProviders then "|ignoreProviders" else ""
  }

  function AdditionalPart(d: DesiredState): string {
    if d.additionalProviders != "" then "|additionalProviders:" + d.additionalProviders else ""
  }

  function ValidationPart(d: DesiredState): string {
    match d.validation case None => "" case Some(v) => "|validation:" + v
  }

  /** The digested string, part by part; unused places are empty. */
  function Parts(d: DesiredState, params: Data, depHash: string, json: Data -> string): seq<string> {
    [if d.git then d.url else d.providersTf, if d.git then "|" else "", if d.git then d.gitRef else "",
     if d.git then "|" else "", if d.git then d.path else "", d.backendTf, if d.git then "" else d.programHcl,
     json(params) + "\n", d.workspace, DependencyPart(depHash), IgnorePart(d), AdditionalPart(d), ValidationPart(d)]
  }

  lemma FlatThree(s: seq<string>, a: string, b: string, c: string)
    ensures Flat(s + [a, b, c]) == Flat(s) + a + b + c
  {
    hide Flat;
    FlatOne(s, a);
    FlatOne(s + [a], b);
    FlatOne(s + [a, b], c);
    assert s + [a] + [b] == s + [a, b] && s + [a, b] + [c] == s + [a, b, c];
  }

  lemma NothingAdded(a: string)
    ensures a + "" == a
  {
  }

  lemma FlatFront(p: seq<string>)
    requires |p| >= 7
    ensures Flat(p[..7]) == p[0] + p[1] + p[2] + p[3] + p[4] + p[5] + p[6]
  {
    FlatOne([], p[0]);
    assert Flat([]) == "" && [] + [p[0]] == p[..1];
    hide Flat;
    FlatThree(p[..1], p[1], p[2], p[3]);
    assert p[..4] == p[..1] + [p[1], p[2], p[3]];
    FlatThree(p[..4], p[4], p[5], p[6]);
    assert p[..7] == p[..4] + [p[4], p[5], p[6]];
  }

  lemma FlatBack(p: seq<string>)
    requires |p| == 13
    ensures Flat(p) == Flat(p[..7]) + p[7] + p[8] + p[9] + p[10] + p[11] + p[12]
  {
    hide Flat;
    FlatThree(p[..7], p[7], p[8], p[9]);
    assert p[..10] == p[..7] + [p[7], p[8], p[9]];
    FlatThree(p[..10], p[10], p[11], p[12]);
    assert p == p[..10] + [p[10], p[11], p[12]];
  }

  lemma HashInputIsFlat(d: DesiredState, params: Data, depHash: string, json: Data -> string)
    ensures HashInput(d, params, depHash, json) == Flat(Parts(d, params, depHash, json))
  {
    hide Flat;
    FlatFront(Parts(d, params, depHash, json));
    FlatBack(Parts(d, params, depHash, json));
    if d.git {
      NothingAdded(d.url + "|" + d.gitRef + "|" + d.path + d.backendTf);
    } else {
      NothingAdded(d.providersTf);
    }
  }

  /** Two inputs of the digest that differ in one part at most are told apart if and only if that part differs. */
  lemma EditShows(d: DesiredState, params: Data, depHash: string, e: DesiredState, params': Data, depHash': string,
                  json: Data -> string, i: nat, v: string)
    requires i < 13 && Parts(e, params', depHash', json) == Parts(d, params, depHash, json)[i := v]
    ensures HashInput(e, params', depHash', json) == HashInput(d, params, depHash, json) <==>
            v == Parts(d, params, depHash, json)[i]
  {
    hide Flat, HashInput;
    HashInputIsFlat(d, params, depHash, json);
    HashInputIsFlat(e, params', depHash', json);
    PartShows(Parts(d, params, depHash, json), i, v);
  }

  // ----- one field of the desired state -----

  // The place of each field.

  lemma ProvidersPart(d: DesiredState, params: Data, depHash: string, json: Data -> string, v: string)
    requires !d.git
    ensures Parts(d.(providersTf := v), params, depHash, json) == Parts(d, params, depHash, json)[0 := v]
  {
  }

  lemma ProgramPart(d: DesiredState, params: Data, depHash: string, json: Data -> string, v: string)
    requires !d.git
    ensures Parts(d.(programHcl := v), params, depHash, json) == Parts(d, params, depHash, json)[6 := v]
  {
  }

  lemma BackendPart(d: DesiredState, params: Data, depHash: string, json: Data -> string, v: string)
    ensures Parts(d.(backendTf := v), params, depHash, json) == Parts(d, params, depHash, json)[5 := v]
  {
  }

  lemma WorkspacePart(d: DesiredState, params: Data, depHash: string, json: Data -> string, v: string)
    ensures Parts(d.(workspace := v), params, depHash, json) == Parts(d, params, depHash, json)[8 := v]
  {
  }

  lemma UrlPart(d: DesiredState, params: Data, depHash: string, json: Data -> string, v: string)
    requires d.git
    ensures Parts(d.(url := v), params, depHash, json) == Parts(d, params, depHash, json)[0 := v]
  {
  }

  lemma RefPart(d: DesiredState, params: Data, depHash: string, json: Data -> string, v: string)
    requires d.git
    ensures Parts(d.(gitRef := v), params, depHash, json) == Parts(d, params, depHash, json)[2 := v]
  {
  }

  lemma PathPart(d: DesiredState, params: Data, depHash: string, json: Data -> string, v: string)
    requires d.git
    ensures Parts(d.(path := v), params, depHash, json) == Parts(d, params, depHash, json)[4 := v]
  {
  }

  lemma NoPart(d: DesiredState, params: Data, depHash: string, json: Data -> string, v: string)
    requires d.git
    ensures Parts(d.(providersTf := v), params, depHash, json) == Parts(d, params, depHash, json)
    ensures Parts(d.(programHcl := v), params, depHash, json) == Parts(d, params, depHash, json)
  {
  }

  /** With all else equal, an inline program is told apart by each of its fields. */
  lemma InlineFieldsShow(d: DesiredState, params: Data, depHash: string, json: Data -> string, v: string)
    requires !d.git
    ensures HashInput(d.(providersTf := v), params, depHash, json) == HashInput(d, params, depHash, json) <==>
            v == d.providersTf
    ensures HashInput(d.(backendTf := v), params, depHash, json) == HashInput(d, params, depHash, json) <==>
            v == d.backendTf
    ensures HashInput(d.(programHcl := v), params, depHash, json) == HashInput(d, params, depHash, json) <==>
            v == d.programHcl
    ensures HashInput(d.(workspace := v), params, depHash, json) == HashInput(d, params, depHash, json) <==>
            v == d.workspace
  {
    PlacesOfInline(d, params, depHash, json);
    hide HashInput, Parts;
    ProvidersPart(d, params, depHash, json, v);
    BackendPart(d, params, depHash, json, v);
    ProgramPart(d, params, depHash, json, v);
    WorkspacePart(d, params, depHash, json, v);
    EditShows(d, params, depHash, d.(providersTf := v), params, depHash, json, 0, v);
    EditShows(d, params, depHash, d.(backendTf := v), params, depHash, json, 5, v);
    EditShows(d, params, depHash, d.(programHcl := v), params, depHash, json, 6, v);
    EditShows(d, params, depHash, d.(workspace := v), params, depHash, json, 8, v);
  }

  lemma PlacesOfInline(d: DesiredState, params: Data, depHash: string, json: Data -> string)
    requires !d.git
    ensures var p := Parts(d, params, depHash, json);
            |p| == 13 && p[0] == d.providersTf && p[5] == d.backendTf && p[6] == d.programHcl && p[8] == d.workspace
  {
  }

  lemma PlacesOfGit(d: DesiredState, params: Data, depHash: string, json: Data -> string)
    requires d.git
    ensures var p := Parts(d, params, depHash, json);
            && |p| == 13 && p[0] == d.url && p[2] == d.gitRef && p[4] == d.path && p[5] == d.backendTf
            && p[8] == d.workspace
  {
  }

  /** A git source is told apart by each of its fields, and providers and inline program do not matter then. */
  lemma GitFieldsShow(d: DesiredState, params: Data, depHash: string, json: Data -> string, v: string)
    requires d.git
    ensures HashInput(d.(url := v), params, depHash, json) == HashInput(d, params, depHash, json) <==> v == d.url
    ensures HashInput(d.(gitRef := v), params, depHash, json) == HashInput(d, params, depHash, json) <==> v == d.gitRef
    ensures HashInput(d.(path := v), params, depHash, json) == HashInput(d, params, depHash, json) <==> v == d.path
    ensures HashInput(d.(backendTf := v), params, depHash, json) == HashInput(d, params, depHash, json) <==>
            v == d.backendTf
    ensures HashInput(d.(workspace := v), params, depHash, json) == HashInput(d, params, depHash, json) <==>
            v == d.workspace
    ensures HashInput(d.(providersTf := v), params, depHash, json) == HashInput(d, params, depHash, json)
    ensures HashInput(d.(programHcl := v), params, depHash, json) == HashInput(d, params, depHash, json)
  {
    PlacesOfGit(d, params, depHash, json);
    hide HashInput, Parts, Flat;
    UrlPart(d, params, depHash, json, v);
    RefPart(d, params, depHash, json, v);
    PathPart(d, params, depHash, json, v);
    BackendPart(d, params, depHash, json, v);
    WorkspacePart(d, params, depHash, json, v);
    NoPart(d, params, depHash, json, v);
    EditShows(d, params, depHash, d.(url := v), params, depHash, json, 0, v);
    EditShows(d, params, depHash, d.(gitRef := v), params, depHash, json, 2, v);
    EditShows(d, params, depHash, d.(path := v), params, depHash, json, 4, v);
    EditShows(d, params, depHash, d.(backendTf := v), params, depHash, json, 5, v);
    EditShows(d, params, depHash, d.(workspace := v), params, depHash, json, 8, v);
    HashInputIsFlat(d, params, depHash, json);
    HashInputIsFlat(d.(providersTf := v), params, depHash, json);
    HashInputIsFlat(d.(programHcl := v), params, depHash, json);
  }

  lemma DependencyShows(d: DesiredState, params: Data, depHash: string, json: Data -> string, v: string)
    ensures HashInput(d, params, v, json) == HashInput(d, params, depHash, json) <==> v == depHash
  {
    hide HashInput;
    assert Parts(d, params, v, json) == Parts(d, params, depHash, json)[9 := DependencyPart(v)];
    EditShows(d, params, depHash, d, params, v, json, 9, DependencyPart(v));
    SameFront("|deps:", v, depHash);
  }

  lemma IgnoreShows(d: DesiredState, params: Data, depHash: string, json: Data -> string, b: bool)
    ensures HashInput(d.(ignoreProviders := b), params, depHash, json) == HashInput(d, params, depHash, json) <==>
            b == d.ignoreProviders
  {
    hide HashInput;
    var e := d.(ignoreProviders := b);
    assert Parts(e, params, depHash, json) == Parts(d, params, depHash, json)[10 := IgnorePart(e)];
    EditShows(d, params, depHash, e, params, depHash, json, 10, IgnorePart(e));
  }

  lemma AdditionalShows(d: DesiredState, params: Data, depHash: string, json: Data -> string, v: string)
    ensures HashInput(d.(additionalProviders := v), params, depHash, json) == HashInput(d, params, depHash, json) <==>
            v == d.additionalProviders
  {
    hide HashInput;
    var e := d.(additionalProviders := v);
    assert Parts(e, params, depHash, json) == Parts(d, params, depHash, json)[11 := AdditionalPart(e)];
    EditShows(d, params, depHash, e, params, depHash, json, 11, AdditionalPart(e));
    SameFront("|additionalProviders:", v, d.additionalProviders);
  }

  lemma ValidationShows(d: DesiredState, params: Data, depHash: string, json: Data -> string, v: Option<string>)
    ensures HashInput(d.(validation := v), params, depHash, json) == HashInput(d, params, depHash, json) <==>
            v == d.validation
  {
    hide HashInput;
    var e := d.(validation := v);
    assert Parts(e, params, depHash, json) == Parts(d, params, depHash, json)[12 := ValidationPart(e)];
    EditShows(d, params, depHash, e, params, depHash, json, 12, ValidationPart(e));
    SameFront("|validation:", v.GetOr(""), d.validation.GetOr(""));
  }

  /** In both modes every option shows, and so does the hash string of resolution. */
  lemma OptionsShow(d: DesiredState, params: Data, depHash: string, json: Data -> string, v: string, b: bool,
                    o: Option<string>)
    ensures HashInput(d, params, v, json) == HashInput(d, params, depHash, json) <==> v == depHash
    ensures HashInput(d.(ignoreProviders := b), params, depHash, json) == HashInput(d, params, depHash, json) <==>
            b == d.ignoreProviders
    ensures HashInput(d.(additionalProviders := v), params, depHash, json) == HashInput(d, params, depHash, json) <==>
            v == d.additionalProviders
    ensures HashInput(d.(validation := o), params, depHash, json) == HashInput(d, params, depHash, json) <==>
            o == d.validation
  {
    hide HashInput;
    DependencyShows(d, params, depHash, json, v);
    IgnoreShows(d, params, depHash, json, b);
    AdditionalShows(d, params, depHash, json, v);
    ValidationShows(d, params, depHash, json, o);
  }

  /** And so do the parameters, as far as their JSON does. */
  lemma ParamsShow(d: DesiredState, params: Data, other: Data, depHash: string, json: Data -> string)
    requires json(other) == json(params) ==> other == params
    ensures HashInput(d, other, depHash, json) == HashInput(d, params, depHash, json) <==> other == params
  {
    hide HashInput;
    var vars := json(other) + "\n";
    assert Parts(d, other, depHash, json) == Parts(d, params, depHash, json)[7 := vars];
    EditShows(d, params, depHash, d, other, depHash, json, 7, vars);
    assert vars[..|json(other)|] == json(other) && (json(params) + "\n")[..|json(params)|] == json(params);
  }

  /** Fields stand side by side without a separator: text moved from one to the next goes unseen. */
  lemma TwoEditsMayCancel(d: DesiredState, params: Data, depHash: string, json: Data -> string, a: string, b: string,
                          c: string)
    requires !d.git
    ensures HashInput(d.(providersTf := a + b, backendTf := c), params, depHash, json) ==
            HashInput(d.(providersTf := a, backendTf := b + c), params, depHash, json)
  {
    assert a + b + c == a + (b + c);
  }

  // ----- edits change the hash -----

  /** The two differ in one field at most. */
  predicate OneEdit(d: DesiredState, e: DesiredState) {
    || e == d.(url := e.url) || e == d.(gitRef := e.gitRef) || e == d.(path := e.path)
    || e == d.(providersTf := e.providersTf) || e == d.(programHcl := e.programHcl)
    || e == d.(backendTf := e.backendTf) || e == d.(workspace := e.workspace)
    || e == d.(ignoreProviders := e.ignoreProviders) || e == d.(additionalProviders := e.additionalProviders)
    || e == d.(validation := e.validation)
  }

  /** Equal but for what the mode does not read: providers and program of a git source, the source of an inline one. */
  predicate ReadsAlike(d: DesiredState, e: DesiredState) {
    if d.git then e == d.(providersTf := e.providersTf, programHcl := e.programHcl)
    else e == d.(url := e.url, gitRef := e.gitRef, path := e.path)
  }

  lemma UnreadSource(d: DesiredState, params: Data, depHash: string, json: Data -> string, v: string)
    requires !d.git
    ensures HashInput(d.(url := v), params, depHash, json) == HashInput(d, params, depHash, json)
    ensures HashInput(d.(gitRef := v), params, depHash, json) == HashInput(d, params, depHash, json)
    ensures HashInput(d.(path := v), params, depHash, json) == HashInput(d, params, depHash, json)
  {
  }

  lemma OneEditShows(d: DesiredState, e: DesiredState, params: Data, depHash: string, json: Data -> string)
    requires OneEdit(d, e)
    ensures HashInput(e, params, depHash, json) == HashInput(d, params, depHash, json) <==> ReadsAlike(d, e)
  {
    hide HashInput;
    OptionsShow(d, params, depHash, json, e.additionalProviders, e.ignoreProviders, e.validation);
    if d.git {
      GitFieldsShow(d, params, depHash, json, e.url);
      GitFieldsShow(d, params, depHash, json, e.gitRef);
      GitFieldsShow(d, params, depHash, json, e.path);
      GitFieldsShow(d, params, depHash, json, e.backendTf);
      GitFieldsShow(d, params, depHash, json, e.workspace);
      GitFieldsShow(d, params, depHash, json, e.providersTf);
      GitFieldsShow(d, params, depHash, json, e.programHcl);
    } else {
      InlineFieldsShow(d, params, depHash, json, e.programHcl);
      InlineFieldsShow(d, params, depHash, json, e.providersTf);
      InlineFieldsShow(d, params, depHash, json, e.backendTf);
      InlineFieldsShow(d, params, depHash, json, e.workspace);
      UnreadSource(d, params, depHash, json, e.url);
      UnreadSource(d, params, depHash, json, e.gitRef);
      UnreadSource(d, params, depHash, json, e.path);
    }
  }

  /** Every iteration order digests the same string, and after one edit another one unless the mode does not read it. */
  lemma HashInputForgetsOrder(src: Sources, ns: string, ups: map<Key, Upstream>, spec: ParamSpec,
                              a: seq<seq<string>>, b: seq<seq<string>>, d: DesiredState, e: DesiredState,
                              json: Data -> string)
    requires AreOrders(a, spec.dependencies) && AreOrders(b, spec.dependencies)
    requires NoConflicts(ns, ups, spec.dependencies)
    requires Resolve(src, ns, ups, spec, a).Resolved? && OneEdit(d, e)
    ensures var r, s := Resolve(src, ns, ups, spec, a), Resolve(src, ns, ups, spec, b);
            && s.Resolved?
            && (HashInput(e, s.params, s.hash, json) == HashInput(d, r.params, r.hash, json) <==> ReadsAlike(d, e))
  {
    hide Resolve, AreOrders, NoConflicts, HashInput, OneEdit, ReadsAlike;
    IterationOrderNeverMatters(src, ns, ups, spec, a, b);
    var r := Resolve(src, ns, ups, spec, a);
    OneEditShows(d, e, r.params, r.hash, json);
  }

  ghost predicate Injective(digest: string -> Digest) {
    forall a, b :: digest(a) == digest(b) ==> a == b
  }

  /**
   Two reconciles between which nothing watched has changed and at most one field of program or project was edited see
   the same hash if and only if the edit is to a field that the mode does not read, or is none.
   */
  lemma EditChangesTheHash(o: Obs, o': Obs, id: Key, ups: map<Key, Upstream>, ups': map<Key, Upstream>,
                           inputs: ParamSpec, d: DesiredState, e: DesiredState, json: Data -> string,
                           digest: string -> Digest)
    requires AreOrders(o.orders, inputs.dependencies) && AreOrders(o'.orders, inputs.dependencies)
    requires Unwatched(inputs, id.ns, o.sources, ups, o'.sources, ups') && NoConflicts(id.ns, ups, inputs.dependencies)
    requires IsDigest(o, id, ups, inputs, d, json, digest) && IsDigest(o', id, ups', inputs, e, json, digest)
    requires Injective(digest) && OneEdit(d, e)
    ensures o.hash == o'.hash <==> ReadsAlike(d, e)
  {
    hide Resolve, AreOrders, Unwatched, NoConflicts, HashInput, OneEdit, ReadsAlike;
    IterationOrderNeverMatters(o.sources, id.ns, ups, inputs, o.orders, o'.orders);
    WatchesCoverResolution(inputs, id.ns, o.sources, ups, o'.sources, ups', o'.orders);
    var r := Resolve(o.sources, id.ns, ups, inputs, o.orders);
    OneEditShows(d, e, r.params, r.hash, json);
  }
}
