/** The v1 projection: containers and env names sorted, replicas included, most of the pod left out. */
module NormalizeV1 {
  import opened Sorting
  import opened Kube
  import opened Normalize

  datatype ContainerV1 = ContainerV1(name: string, image: string, envNames: seq<string>, resources: ResourceForm)

  datatype DeploymentV1 = DeploymentV1(
    namespace: string,
    name: string,
    labels: map<string, string>,
    replicas: int,
    selector: SelectorForm,
    podTemplateLabels: map<string, string>,
    containers: seq<ContainerV1>)

  function EnvName(e: EnvVar): string {
    e.name
  }

  function ContainerFormV1(c: Container): ContainerV1 {
    ContainerV1(c.name, c.image, Sort(StringLess, Map(EnvName, Items(c.env))), ResourcesForm(c.resources))
  }

  /** The comparator of containers looks at names only. */
  predicate NameLess(a: ContainerV1, b: ContainerV1) {
    StringLess(a.name, b.name)
  }

  function ContainersForm(cs: seq<Container>): seq<ContainerV1> {
    Sort(NameLess, Map(ContainerFormV1, cs))
  }

  function Replicas(d: Deployment): int {
    if d.replicas.None? then 1 else d.replicas.value
  }

  /** `Normalize`, with one of the sorts `sort.Slice` may be. */
  function NormalFormV1(d: Deployment): DeploymentV1 {
    DeploymentV1(d.namespace, d.name, LabelForm(d.labels), Replicas(d), FormOf(d.selector),
                 LabelForm(d.podLabels), ContainersForm(Items(d.pod.containers)))
  }

  predicate DistinctNames(cs: seq<Container>) {
    forall i, j :: 0 <= i < j < |cs| ==> cs[i].name != cs[j].name
  }

  lemma NameOrder()
    ensures Irreflexive(NameLess) && Transitive(NameLess) && Weak(NameLess)
  {
    StringOrders();
    TotalIsWeak(StringLess);
    assert forall x, y :: NameLess(x, y) == StringLess(x.name, y.name);
  }

  lemma NamesOrderPair(cs: seq<Container>, i: nat, j: nat)
    requires DistinctNames(cs) && i < |cs| && j < |cs| && i != j
    ensures
      var x, y := ContainerFormV1(cs[i]), ContainerFormV1(cs[j]);
      NameLess(x, y) || NameLess(y, x)
  {
    assert cs[i].name != cs[j].name;
    StringTrichotomy(cs[i].name, cs[j].name);
  }

  /** With distinct names, the order of names orders the containers. */
  lemma NamesOrderAll(cs: seq<Container>)
    requires DistinctNames(cs)
    ensures OrdersAll(NameLess, Map(ContainerFormV1, cs))
  {
    var s := Map(ContainerFormV1, cs);
    forall x, y | x in s && y in s
      ensures x == y || NameLess(x, y) || NameLess(y, x)
    {
      var i :| 0 <= i < |s| && s[i] == x;
      var j :| 0 <= j < |s| && s[j] == y;
      if i != j {
        NamesOrderPair(cs, i, j);
      }
    }
  }

  // ---------- what goes where, field by field ----------

  /** The names, ascending, as often as declared. */
  ghost predicate NamesProject(env: Slice<EnvVar>, names: seq<string>) {
    && Ascending(names)
    && |names| == (if env.None? then 0 else |env.value|)
    && multiset(names) == multiset(seq(|names|, i requires 0 <= i < |names| => env.value[i].name))
  }

  lemma NameFields(env: Slice<EnvVar>)
    ensures NamesProject(env, Sort(StringLess, Map(EnvName, Items(env))))
  {
    var names := Map(EnvName, Items(env));
    var sorted := Sort(StringLess, names);
    StringOrders();
    TotalIsWeak(StringLess);
    SortSorts(StringLess, names);
    SortedAscends(sorted);
    SameSize(sorted, names);
    assert names == seq(|names|, i requires 0 <= i < |names| => env.value[i].name);
  }

  ghost predicate ContainerProjectsV1(c: Container, r: ContainerV1) {
    r.name == c.name && r.image == c.image && NamesProject(c.env, r.envNames) && ResourcesProject(c.resources, r.resources)
  }

  lemma ContainerFieldsV1(c: Container)
    ensures ContainerProjectsV1(c, ContainerFormV1(c))
  {
    NameFields(c.env);
    ResourceFields(c.resources);
  }

  /** The containers, their names not descending, are the declared ones. */
  ghost predicate ContainersProjectV1(cs: Slice<Container>, out: seq<ContainerV1>) {
    && (forall i, j :: 0 <= i < j < |out| ==> out[i].name == out[j].name || StringLess(out[i].name, out[j].name))
    && exists order: seq<ContainerV1> :: multiset(order) == multiset(out)
         && |order| == (if cs.None? then 0 else |cs.value|)
         && forall i :: 0 <= i < |order| ==> ContainerProjectsV1(cs.value[i], order[i])
  }

  lemma ContainersFieldsV1(cs: Slice<Container>, out: seq<ContainerV1>)
    requires Sorted(NameLess, out) && multiset(out) == multiset(Map(ContainerFormV1, Items(cs)))
    ensures ContainersProjectV1(cs, out)
  {
    forall i, j | 0 <= i < j < |out|
      ensures out[i].name == out[j].name || StringLess(out[i].name, out[j].name)
    {
      assert !NameLess(out[j], out[i]);
      StringTrichotomy(out[i].name, out[j].name);
    }
    var order := Map(ContainerFormV1, Items(cs));
    forall i | 0 <= i < |order|
      ensures ContainerProjectsV1(Items(cs)[i], order[i])
    {
      ContainerFieldsV1(Items(cs)[i]);
    }
  }

  /** The v1 normal form, field by field; omitted replicas are one. */
  lemma V1Fields(d: Deployment)
    ensures
      var r := NormalFormV1(d);
      && r.namespace == d.namespace && r.name == d.name
      && LabelsKept(d.labels, r.labels) && LabelsKept(d.podLabels, r.podTemplateLabels)
      && (d.replicas.None? ==> r.replicas == 1) && (d.replicas.Some? ==> r.replicas == d.replicas.value)
      && SelectorProjects(d.selector, r.selector) && ContainersProjectV1(d.pod.containers, r.containers)
  {
    LabelFields(d.labels);
    LabelFields(d.podLabels);
    SelectorFields(d.selector);
    NameOrder();
    SortSorts(NameLess, Map(ContainerFormV1, Items(d.pod.containers)));
    ContainersFieldsV1(d.pod.containers, ContainersForm(Items(d.pod.containers)));
  }

  /** `envNames`. */
  method EnvNames(env: Slice<EnvVar>) returns (names: seq<string>)
    ensures names == Sort(StringLess, Map(EnvName, Items(env)))
    ensures NamesProject(env, names)
  {
    var es := Items(env);
    var out: seq<string> := [];
    for i := 0 to |es|
      invariant out == Map(EnvName, es[..i])
    {
      out := out + [es[i].name];
    }
    assert es[..|es|] == es;
    StringOrders();
    TotalIsWeak(StringLess);
    names := SortSlice(StringLess, out);
    AnySortAgrees(StringLess, out, names);
    NameFields(env);
  }

  method NormalizeContainer(c: Container) returns (r: ContainerV1)
    ensures r == ContainerFormV1(c)
    ensures ContainerProjectsV1(c, r)
  {
    ContainerFieldsV1(c);
    var names := EnvNames(c.env);
    r := ContainerV1(c.name, c.image, names, ResourcesForm(c.resources));
  }

  /** The loop of `normalizeContainers`. */
  method ProjectContainers(cs: seq<Container>) returns (all: seq<ContainerV1>)
    ensures all == Map(ContainerFormV1, cs)
  {
    all := [];
    for i := 0 to |cs|
      invariant |all| == i
      invariant forall k :: 0 <= k < i ==> all[k] == ContainerFormV1(cs[k])
    {
      var c := NormalizeContainer(cs[i]);
      all := all + [c];
    }
  }

  /** `normalizeContainers`: with distinct names the unstable sort leaves no choice. */
  method NormalizeContainers(containers: Slice<Container>) returns (out: seq<ContainerV1>)
    ensures Sorted(NameLess, out) && multiset(out) == multiset(Map(ContainerFormV1, Items(containers)))
    ensures ContainersProjectV1(containers, out)
    ensures DistinctNames(Items(containers)) ==> out == ContainersForm(Items(containers))
  {
    var cs := Items(containers);
    var all := ProjectContainers(cs);
    NameOrder();
    out := SortSlice(NameLess, all);
    ContainersFieldsV1(containers, out);
    if DistinctNames(cs) {
      AnyNameSortAgrees(cs, out);
    }
  }

  lemma AnyNameSortAgrees(cs: seq<Container>, r: seq<ContainerV1>)
    requires DistinctNames(cs) && Sorted(NameLess, r) && multiset(r) == multiset(Map(ContainerFormV1, cs))
    ensures r == ContainersForm(cs)
  {
    NameOrder();
    NamesOrderAll(cs);
    SortSorts(NameLess, Map(ContainerFormV1, cs));
    assert forall x :: x in ContainersForm(cs) ==> x in multiset(ContainersForm(cs));
    assert forall x :: x in ContainersForm(cs) ==> x in Map(ContainerFormV1, cs);
    SortedUnique(NameLess, ContainersForm(cs), r);
  }

  /** Containers that differ in nothing v1 hashes. */
  ghost predicate SameInV1(a: Container, b: Container) {
    && a.name == b.name && a.image == b.image && SameResources(a.resources, b.resources)
    && multiset(Map(EnvName, Items(a.env))) == multiset(Map(EnvName, Items(b.env)))
  }

  lemma ContainerKernelV1(a: Container, b: Container)
    ensures ContainerFormV1(a) == ContainerFormV1(b) <==> SameInV1(a, b)
  {
    StringOrders();
    SortEqualIff(StringLess, Map(EnvName, Items(a.env)), Map(EnvName, Items(b.env)));
    ResourceKernel(a.resources, b.resources);
  }

  /** The containers can be paired off, in some order, so that each pair is the same to v1. */
  ghost predicate SameUpToOrder(a: seq<Container>, b: seq<Container>) {
    exists b' :: multiset(b') == multiset(b) && Pairwise(SameInV1, a, b')
  }

  lemma SameBag(a: seq<Container>, b: seq<Container>, b': seq<Container>)
    requires multiset(b') == multiset(b) && Pairwise(SameInV1, a, b')
    ensures multiset(Map(ContainerFormV1, a)) == multiset(Map(ContainerFormV1, b))
  {
    forall i | 0 <= i < |a|
      ensures ContainerFormV1(a[i]) == ContainerFormV1(b'[i])
    {
      ContainerKernelV1(a[i], b'[i]);
    }
    assert Map(ContainerFormV1, a) == Map(ContainerFormV1, b');
    MapPermuted(ContainerFormV1, b', b);
  }

  lemma SameUpToOrderIff(a: seq<Container>, b: seq<Container>)
    ensures SameUpToOrder(a, b) <==> multiset(Map(ContainerFormV1, a)) == multiset(Map(ContainerFormV1, b))
  {
    if SameUpToOrder(a, b) {
      var b' :| multiset(b') == multiset(b) && Pairwise(SameInV1, a, b');
      SameBag(a, b, b');
    }
    if multiset(Map(ContainerFormV1, a)) == multiset(Map(ContainerFormV1, b)) {
      var b' := PairUp(ContainerFormV1, a, b);
      forall i | 0 <= i < |a|
        ensures SameInV1(a[i], b'[i])
      {
        ContainerKernelV1(a[i], b'[i]);
      }
      assert multiset(b') == multiset(b) && Pairwise(SameInV1, a, b');
    }
  }

  /**
    With distinct container names, two Deployments have equal v1 normal forms exactly when they agree on
    what v1 hashes up to the order of containers, of env entries and of selector requirements.
   */
  lemma V1Kernel(a: Deployment, b: Deployment)
    requires DistinctNames(Items(a.pod.containers))
    ensures NormalFormV1(a) == NormalFormV1(b) <==>
            && a.namespace == b.namespace && a.name == b.name && Replicas(a) == Replicas(b)
            && LabelsAgree(a.labels, b.labels) && LabelsAgree(a.podLabels, b.podLabels)
            && SelectorsAgree(a.selector, b.selector)
            && SameUpToOrder(Items(a.pod.containers), Items(b.pod.containers))
  {
    LabelKernel(a.labels, b.labels);
    LabelKernel(a.podLabels, b.podLabels);
    SelectorKernel(a.selector, b.selector);
    var s, t := Items(a.pod.containers), Items(b.pod.containers);
    SameUpToOrderIff(s, t);
    NameOrder();
    SortSorts(NameLess, Map(ContainerFormV1, t));
    if SameUpToOrder(s, t) {
      AnyNameSortAgrees(s, ContainersForm(t));
    }
  }

  lemma ContainerRefines(a: Container, b: Container)
    requires ContainerFormV2(a) == ContainerFormV2(b)
    ensures ContainerFormV1(a) == ContainerFormV1(b)
  {
    var x, y := Map(EnvRefOf, Items(a.env)), Map(EnvRefOf, Items(b.env));
    assert x == y;
    assert forall i :: 0 <= i < |x| ==> x[i].name == Items(a.env)[i].name && y[i].name == Items(b.env)[i].name;
    assert Map(EnvName, Items(a.env)) == Map(EnvName, Items(b.env));
  }

  /** v2 sees everything v1 sees except replicas. */
  lemma V2RefinesV1(a: Deployment, b: Deployment)
    requires NormalizeV2(a) == NormalizeV2(b) && Replicas(a) == Replicas(b)
    ensures NormalFormV1(a) == NormalFormV1(b)
  {
    var s, t := Items(a.pod.containers), Items(b.pod.containers);
    var x, y := Map(ContainerFormV2, s), Map(ContainerFormV2, t);
    assert x == y by {
      assert PodForm(a.pod).containers == PodForm(b.pod).containers;
    }
    forall i | 0 <= i < |s|
      ensures ContainerFormV1(s[i]) == ContainerFormV1(t[i])
    {
      assert x[i] == y[i];
      ContainerRefines(s[i], t[i]);
    }
    assert Map(ContainerFormV1, s) == Map(ContainerFormV1, t);
  }
}
