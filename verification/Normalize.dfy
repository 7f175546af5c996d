/** The two projections of a Deployment that are hashed, and exactly what each of them forgets. */
module Normalize {
  import opened Types
  import opened Quantity
  import opened Sorting
  import opened Kube

  // ---------- labels ----------

  const GeneratedLabelKeys: set<string> :=
    {"pod-template-hash", "controller-revision-hash", "pod-template-generation",
     "statefulset.kubernetes.io/pod-name", "apps.kubernetes.io/pod-index", "batch.kubernetes.io/job-completion-index"}

  function LabelForm(labels: Dict<string>): map<string, string> {
    map k | k in Entries(labels) && k !in GeneratedLabelKeys :: Entries(labels)[k]
  }

  /** Every label under its own key, but for six keys that controllers write. */
  predicate LabelsKept(labels: Dict<string>, out: map<string, string>) {
    && (labels.None? ==> out == map[])
    && (labels.Some? ==>
          && (forall k :: k in out ==> k in labels.value && out[k] == labels.value[k])
          && (forall k :: k in labels.value && k !in out ==>
                || k == "pod-template-hash" || k == "controller-revision-hash" || k == "pod-template-generation"
                || k == "statefulset.kubernetes.io/pod-name" || k == "apps.kubernetes.io/pod-index"
                || k == "batch.kubernetes.io/job-completion-index")
          && "pod-template-hash" !in out && "controller-revision-hash" !in out && "pod-template-generation" !in out
          && "statefulset.kubernetes.io/pod-name" !in out && "apps.kubernetes.io/pod-index" !in out
          && "batch.kubernetes.io/job-completion-index" !in out)
  }

  lemma LabelFields(labels: Dict<string>)
    ensures LabelsKept(labels, LabelForm(labels))
  {
  }

  /** `filterLabels`. */
  method FilterLabels(labels: Dict<string>) returns (out: map<string, string>)
    ensures out == LabelForm(labels)
    ensures LabelsKept(labels, out)
  {
    LabelFields(labels);
    var all := Entries(labels);
    var todo := all.Keys;
    out := map[];
    while todo != {}
      invariant todo <= all.Keys
      invariant out == map k | k in all && k !in todo && k !in GeneratedLabelKeys :: all[k]
    {
      var k :| k in todo;
      todo := todo - {k};
      if k in GeneratedLabelKeys {
        continue;
      }
      out := out[k := all[k]];
    }
  }

  /** The labels agree wherever the key is not generated. */
  predicate LabelsAgree(a: Dict<string>, b: Dict<string>) {
    && (forall k :: k in Entries(a) && k !in GeneratedLabelKeys ==> k in Entries(b) && Entries(a)[k] == Entries(b)[k])
    && (forall k :: k in Entries(b) && k !in GeneratedLabelKeys ==> k in Entries(a))
  }

  lemma LabelKernel(a: Dict<string>, b: Dict<string>)
    ensures LabelForm(a) == LabelForm(b) <==> LabelsAgree(a, b)
  {
    if LabelForm(a) == LabelForm(b) {
      assert forall k :: k in LabelForm(a) <==> k in LabelForm(b);
      forall k | k in Entries(a) && k !in GeneratedLabelKeys
        ensures k in Entries(b) && Entries(a)[k] == Entries(b)[k]
      {
        assert k in LabelForm(a);
      }
      forall k | k in Entries(b) && k !in GeneratedLabelKeys
        ensures k in Entries(a)
      {
        assert k in LabelForm(b);
      }
    }
  }

  // ---------- selectors ----------

  /** A requirement after normalization. */
  datatype Req = Req(key: string, operator: string, values: seq<string>)

  datatype SelectorForm = SelectorForm(matchLabels: map<string, string>, matchExpressions: seq<Req>)

  /** The comparator handed to `sort.Slice`. */
  predicate ReqLess(a: Req, b: Req) {
    if a.key != b.key then StringLess(a.key, b.key)
    else if a.operator != b.operator then StringLess(a.operator, b.operator)
    else StringsLess(a.values, b.values)
  }

  lemma ReqOrder()
    ensures StrictTotalOrder(ReqLess)
  {
    StringOrders();
  }

  /** The comparator looks at the key, then the operator, then the values. */
  lemma ReqLaws(a: Req, b: Req)
    ensures StringLess(a.key, b.key) ==> ReqLess(a, b)
    ensures a.key == b.key && StringLess(a.operator, b.operator) ==> ReqLess(a, b)
    ensures a.key == b.key && a.operator == b.operator && StringsLess(a.values, b.values) ==> ReqLess(a, b)
  {
    StringOrders();
  }

  function ReqForm(r: Requirement): Req {
    Req(r.key, r.operator, Sort(StringLess, Items(r.values)))
  }

  function Labels(sel: Option<Selector>): map<string, string> {
    if sel.None? then map[] else Entries(sel.value.matchLabels)
  }

  function Requirements(sel: Option<Selector>): seq<Requirement> {
    if sel.None? then [] else Items(sel.value.matchExpressions)
  }

  function FormOf(sel: Option<Selector>): SelectorForm {
    SelectorForm(Labels(sel), Sort(ReqLess, Map(ReqForm, Requirements(sel))))
  }

  /** The list, whether nil or not. */
  predicate Lists<T(==)>(s: Slice<T>, r: seq<T>) {
    s == Some(r) || (s.None? && r == [])
  }

  predicate Maps<V(==)>(d: Dict<V>, r: map<string, V>) {
    d == Some(r) || (d.None? && r == map[])
  }

  ghost predicate Ascending(s: seq<string>) {
    forall i, j :: 0 <= i < j < |s| ==> s[i] == s[j] || StringLess(s[i], s[j])
  }

  /** A requirement keeps its key and operator, and its values ascend. */
  ghost predicate ReqProjects(r: Requirement, q: Req) {
    && q.key == r.key && q.operator == r.operator && Ascending(q.values)
    && multiset(q.values) == (if r.values.None? then multiset{} else multiset(r.values.value))
  }

  lemma SortedAscends(s: seq<string>)
    requires Sorted(StringLess, s)
    ensures Ascending(s)
  {
    forall i, j | 0 <= i < j < |s|
      ensures s[i] == s[j] || StringLess(s[i], s[j])
    {
      StringTrichotomy(s[i], s[j]);
    }
  }

  lemma ReqFields(r: Requirement)
    ensures ReqProjects(r, ReqForm(r))
  {
    StringOrders();
    TotalIsWeak(StringLess);
    SortSorts(StringLess, Items(r.values));
    SortedAscends(ReqForm(r).values);
  }

  /** The requirements of a normal form, in ascending order, are the declared ones. */
  ghost predicate ReqsProject(rs: seq<Requirement>, qs: seq<Req>) {
    && (forall i, j :: 0 <= i < j < |qs| ==> qs[i] == qs[j] || ReqLess(qs[i], qs[j]))
    && exists order: seq<Req> :: multiset(order) == multiset(qs) && |order| == |rs|
         && forall i :: 0 <= i < |rs| ==> ReqProjects(rs[i], order[i])
  }

  lemma ReqsFields(rs: seq<Requirement>)
    ensures ReqsProject(rs, Sort(ReqLess, Map(ReqForm, rs)))
  {
    var order := Map(ReqForm, rs);
    var qs := Sort(ReqLess, order);
    ReqOrder();
    TotalIsWeak(ReqLess);
    SortSorts(ReqLess, order);
    forall i, j | 0 <= i < j < |qs|
      ensures qs[i] == qs[j] || ReqLess(qs[i], qs[j])
    {
    }
    forall i | 0 <= i < |rs|
      ensures ReqProjects(rs[i], order[i])
    {
      ReqFields(rs[i]);
    }
  }

  /** Labels as they are, requirements in order; a missing selector has neither. */
  ghost predicate SelectorProjects(sel: Option<Selector>, ns: SelectorForm) {
    if sel.None? then ns.matchLabels == map[] && ns.matchExpressions == []
    else
      && Maps(sel.value.matchLabels, ns.matchLabels)
      && ReqsProject(if sel.value.matchExpressions.None? then [] else sel.value.matchExpressions.value, ns.matchExpressions)
  }

  lemma SelectorFields(sel: Option<Selector>)
    ensures SelectorProjects(sel, FormOf(sel))
  {
    ReqsFields(Requirements(sel));
  }

  /** `sort.Strings` and `sort.Slice`: all that is promised is a sorted permutation. */
  method SortSlice<T(!new)>(less: (T, T) -> bool, s: seq<T>) returns (r: seq<T>)
    requires Irreflexive(less) && Transitive(less) && Weak(less)
    ensures Sorted(less, r) && multiset(r) == multiset(s)
  {
    SortSorts(less, s);
    r := Sort(less, s);
  }

  /** The loop of `normalizeSelector`. */
  method ProjectRequirements(reqs: seq<Requirement>) returns (out: seq<Req>)
    ensures out == Map(ReqForm, reqs)
  {
    StringOrders();
    TotalIsWeak(StringLess);
    out := [];
    for i := 0 to |reqs|
      invariant |out| == i
      invariant forall k :: 0 <= k < i ==> out[k] == ReqForm(reqs[k])
    {
      var values := SortSlice(StringLess, Items(reqs[i].values));
      AnySortAgrees(StringLess, Items(reqs[i].values), values);
      out := out + [Req(reqs[i].key, reqs[i].operator, values)];
    }
  }

  /** `normalizeSelector`. */
  method NormalizeSelector(sel: Option<Selector>) returns (ns: SelectorForm)
    ensures ns == FormOf(sel)
    ensures SelectorProjects(sel, ns)
  {
    SelectorFields(sel);
    ns := SelectorForm(map[], []);
    if sel.None? {
      return;
    }
    ns := ns.(matchLabels := Entries(sel.value.matchLabels));
    var out := ProjectRequirements(Requirements(sel));
    ReqOrder();
    TotalIsWeak(ReqLess);
    var sorted := SortSlice(ReqLess, out);
    AnySortAgrees(ReqLess, out, sorted);
    ns := ns.(matchExpressions := sorted);
  }

  /** What a requirement says, with its values as a bag. */
  datatype ReqBag = ReqBag(key: string, operator: string, values: multiset<string>)

  function BagOf(r: Requirement): ReqBag {
    ReqBag(r.key, r.operator, multiset(Items(r.values)))
  }

  /** The selectors have the same labels and the same bag of requirements. */
  ghost predicate SelectorsAgree(a: Option<Selector>, b: Option<Selector>) {
    && Labels(a) == Labels(b)
    && multiset(Map(BagOf, Requirements(a))) == multiset(Map(BagOf, Requirements(b)))
  }

  lemma ReqKernel(r: Requirement, q: Requirement)
    ensures ReqForm(r) == ReqForm(q) <==> BagOf(r) == BagOf(q)
  {
    StringOrders();
    SortEqualIff(StringLess, Items(r.values), Items(q.values));
  }

  /** Normal forms of selectors are equal exactly when the selectors agree. */
  lemma SelectorKernel(a: Option<Selector>, b: Option<Selector>)
    ensures FormOf(a) == FormOf(b) <==> SelectorsAgree(a, b)
  {
    forall r, q
      ensures ReqForm(r) == ReqForm(q) <==> BagOf(r) == BagOf(q)
    {
      ReqKernel(r, q);
    }
    ReqOrder();
    var s, t := Requirements(a), Requirements(b);
    SortEqualIff(ReqLess, Map(ReqForm, s), Map(ReqForm, t));
    if multiset(Map(ReqForm, s)) == multiset(Map(ReqForm, t)) {
      MapBags(ReqForm, BagOf, s, t);
    }
    if multiset(Map(BagOf, s)) == multiset(Map(BagOf, t)) {
      MapBags(BagOf, ReqForm, s, t);
    }
  }

  // ---------- resources ----------

  datatype ResourceForm = ResourceForm(requests: map<string, string>, limits: map<string, string>)

  function QuantityMap(rl: Dict<Dec>): map<string, string> {
    map name | name in Entries(rl) :: Canonical(Entries(rl)[name])
  }

  function ResourcesForm(r: Resources): ResourceForm {
    ResourceForm(QuantityMap(r.requests), QuantityMap(r.limits))
  }

  /** Each amount under its own name, in its canonical string. */
  predicate AmountsProject(rl: Dict<Dec>, out: map<string, string>) {
    && (rl.None? ==> out == map[])
    && (rl.Some? ==> out.Keys == rl.value.Keys && forall name :: name in out ==> out[name] == Canonical(rl.value[name]))
  }

  predicate ResourcesProject(r: Resources, out: ResourceForm) {
    AmountsProject(r.requests, out.requests) && AmountsProject(r.limits, out.limits)
  }

  lemma ResourceFields(r: Resources)
    ensures ResourcesProject(r, ResourcesForm(r))
  {
  }

  /** The same resources in the same amounts, however written. */
  predicate SameAmounts(a: Dict<Dec>, b: Dict<Dec>) {
    && Entries(a).Keys == Entries(b).Keys
    && forall name :: name in Entries(a) ==> SameValue(Entries(a)[name], Entries(b)[name])
  }

  predicate SameResources(a: Resources, b: Resources) {
    SameAmounts(a.requests, b.requests) && SameAmounts(a.limits, b.limits)
  }

  lemma QuantityKernel(a: Dict<Dec>, b: Dict<Dec>)
    ensures QuantityMap(a) == QuantityMap(b) <==> SameAmounts(a, b)
  {
    forall name | name in Entries(a) && name in Entries(b)
      ensures Canonical(Entries(a)[name]) == Canonical(Entries(b)[name])
              <==> SameValue(Entries(a)[name], Entries(b)[name])
    {
      CanonicalIffSameValue(Entries(a)[name], Entries(b)[name]);
    }
    assert QuantityMap(a).Keys == Entries(a).Keys && QuantityMap(b).Keys == Entries(b).Keys;
    if QuantityMap(a) == QuantityMap(b) {
      forall name | name in Entries(a)
        ensures SameValue(Entries(a)[name], Entries(b)[name])
      {
        assert QuantityMap(a)[name] == QuantityMap(b)[name];
      }
    }
  }

  lemma ResourceKernel(a: Resources, b: Resources)
    ensures ResourcesForm(a) == ResourcesForm(b) <==> SameResources(a, b)
  {
    QuantityKernel(a.requests, b.requests);
    QuantityKernel(a.limits, b.limits);
  }

  // ---------- v2 ----------

  datatype EnvRef = EnvRef(name: string, literal: bool, valueFrom: Option<Upstream>)

  function EnvRefOf(e: EnvVar): EnvRef {
    EnvRef(e.name, e.valueFrom.None?, e.valueFrom)
  }

  datatype ContainerV2 = ContainerV2(
    name: string,
    image: string,
    command: seq<string>,
    args: seq<string>,
    workingDir: string,
    env: seq<EnvRef>,
    envFrom: seq<Upstream>,
    ports: seq<Upstream>,
    imagePullPolicy: string,
    resources: ResourceForm,
    volumeMounts: seq<Upstream>,
    volumeDevices: seq<Upstream>,
    securityContext: Option<Upstream>,
    livenessProbe: Option<Upstream>,
    readinessProbe: Option<Upstream>,
    startupProbe: Option<Upstream>,
    lifecycle: Option<Upstream>,
    restartPolicy: Option<string>)

  datatype PodV2 = PodV2(
    initContainers: seq<ContainerV2>,
    containers: seq<ContainerV2>,
    serviceAccountName: string,
    automountServiceAccountToken: Option<bool>,
    imagePullSecrets: seq<Upstream>,
    hostNetwork: bool,
    hostPID: bool,
    hostIPC: bool,
    hostUsers: Option<bool>,
    runtimeClassName: Option<string>,
    securityContext: Option<Upstream>,
    shareProcessNamespace: Option<bool>,
    volumes: seq<Upstream>,
    resourceClaims: seq<Upstream>,
    hostAliases: seq<Upstream>,
    dnsPolicy: string,
    dnsConfig: Option<Upstream>,
    hostname: string,
    subdomain: string,
    setHostnameAsFQDN: Option<bool>,
    enableServiceLinks: Option<bool>,
    nodeSelector: map<string, string>,
    nodeName: string,
    schedulerName: string,
    affinity: Option<Upstream>,
    tolerations: seq<Upstream>,
    topologySpreadConstraints: seq<Upstream>,
    priorityClassName: string,
    preemptionPolicy: Option<string>,
    schedulingGates: seq<Upstream>,
    os: Option<Upstream>)

  datatype DeploymentV2 = DeploymentV2(
    namespace: string,
    name: string,
    labels: map<string, string>,
    selector: SelectorForm,
    podTemplateLabels: map<string, string>,
    pod: PodV2)

  function ContainerFormV2(c: Container): ContainerV2 {
    ContainerV2(
      c.name, c.image, Items(c.command), Items(c.args), c.workingDir,
      Map(EnvRefOf, Items(c.env)), Items(c.envFrom),
      Items(c.ports), c.imagePullPolicy, ResourcesForm(c.resources), Items(c.volumeMounts), Items(c.volumeDevices),
      c.securityContext, c.livenessProbe, c.readinessProbe, c.startupProbe, c.lifecycle, c.restartPolicy)
  }

  // ---------- what goes where, field by field ----------

  /** A variable's name and where it comes from, never what it holds. */
  predicate EnvProjects(e: EnvVar, r: EnvRef) {
    r.name == e.name && r.valueFrom == e.valueFrom && (r.literal <==> e.valueFrom == None)
  }

  predicate EnvsProject(env: Slice<EnvVar>, out: seq<EnvRef>) {
    && (env.None? ==> out == [])
    && (env.Some? ==> |out| == |env.value| && forall i :: 0 <= i < |out| ==> EnvProjects(env.value[i], out[i]))
  }

  predicate ContainerProjects(c: Container, r: ContainerV2) {
    && r.name == c.name && r.image == c.image && Lists(c.command, r.command) && Lists(c.args, r.args)
    && r.workingDir == c.workingDir && EnvsProject(c.env, r.env) && Lists(c.envFrom, r.envFrom)
    && Lists(c.ports, r.ports) && r.imagePullPolicy == c.imagePullPolicy && ResourcesProject(c.resources, r.resources)
    && Lists(c.volumeMounts, r.volumeMounts) && Lists(c.volumeDevices, r.volumeDevices)
    && r.securityContext == c.securityContext && r.livenessProbe == c.livenessProbe
    && r.readinessProbe == c.readinessProbe && r.startupProbe == c.startupProbe
    && r.lifecycle == c.lifecycle && r.restartPolicy == c.restartPolicy
  }

  /** Every container in its declared place. */
  predicate ContainersProject(cs: Slice<Container>, out: seq<ContainerV2>) {
    && (cs.None? ==> out == [])
    && (cs.Some? ==> |out| == |cs.value| && forall i :: 0 <= i < |out| ==> ContainerProjects(cs.value[i], out[i]))
  }

  lemma ContainerFields(c: Container)
    ensures ContainerProjects(c, ContainerFormV2(c))
  {
    ResourceFields(c.resources);
  }

  lemma ContainersFields(cs: Slice<Container>)
    ensures ContainersProject(cs, Map(ContainerFormV2, Items(cs)))
  {
    forall i | 0 <= i < |Items(cs)|
      ensures ContainerProjects(Items(cs)[i], ContainerFormV2(Items(cs)[i]))
    {
      ContainerFields(Items(cs)[i]);
    }
  }

  /** `normalizeEnvRefs`. */
  method NormalizeEnvRefs(env: Slice<EnvVar>) returns (out: seq<EnvRef>)
    ensures out == Map(EnvRefOf, Items(env))
    ensures EnvsProject(env, out)
  {
    var es := Items(env);
    out := [];
    for i := 0 to |es|
      invariant out == Map(EnvRefOf, es[..i])
    {
      out := out + [EnvRef(es[i].name, es[i].valueFrom.None?, es[i].valueFrom)];
    }
    assert es[..|es|] == es;
  }

  /** `normalizeContainersV2`: the declared order is kept. */
  method NormalizeContainersV2(containers: Slice<Container>) returns (out: seq<ContainerV2>)
    ensures out == Map(ContainerFormV2, Items(containers))
    ensures ContainersProject(containers, out)
  {
    var cs := Items(containers);
    out := [];
    for i := 0 to |cs|
      invariant out == Map(ContainerFormV2, cs[..i])
    {
      var c := cs[i];
      var env := NormalizeEnvRefs(c.env);
      out := out + [ContainerV2(
                      c.name, c.image, Items(c.command), Items(c.args), c.workingDir, env, Items(c.envFrom),
                      Items(c.ports), c.imagePullPolicy, ResourcesForm(c.resources), Items(c.volumeMounts),
                      Items(c.volumeDevices), c.securityContext, c.livenessProbe, c.readinessProbe, c.startupProbe,
                      c.lifecycle, c.restartPolicy)];
    }
    assert cs[..|cs|] == cs;
    ContainersFields(containers);
  }

  function PodForm(p: PodSpec): PodV2 {
    PodV2(
      Map(ContainerFormV2, Items(p.initContainers)), Map(ContainerFormV2, Items(p.containers)),
      p.serviceAccountName, p.automountServiceAccountToken, Items(p.imagePullSecrets),
      p.hostNetwork, p.hostPID, p.hostIPC, p.hostUsers,
      p.runtimeClassName, p.securityContext, p.shareProcessNamespace,
      Items(p.volumes), Items(p.resourceClaims),
      Items(p.hostAliases), p.dnsPolicy, p.dnsConfig, p.hostname, p.subdomain, p.setHostnameAsFQDN, p.enableServiceLinks,
      Entries(p.nodeSelector), p.nodeName, p.schedulerName, p.affinity, Items(p.tolerations),
      Items(p.topologySpreadConstraints), p.priorityClassName, p.preemptionPolicy, Items(p.schedulingGates), p.os)
  }

  function NormalizeV2(d: Deployment): DeploymentV2 {
    DeploymentV2(d.namespace, d.name, LabelForm(d.labels), FormOf(d.selector), LabelForm(d.podLabels), PodForm(d.pod))
  }

  predicate PodProjects(p: PodSpec, r: PodV2) {
    && ContainersProject(p.initContainers, r.initContainers) && ContainersProject(p.containers, r.containers)
    && r.serviceAccountName == p.serviceAccountName && r.automountServiceAccountToken == p.automountServiceAccountToken
    && Lists(p.imagePullSecrets, r.imagePullSecrets)
    && r.hostNetwork == p.hostNetwork && r.hostPID == p.hostPID && r.hostIPC == p.hostIPC && r.hostUsers == p.hostUsers
    && r.runtimeClassName == p.runtimeClassName && r.securityContext == p.securityContext
    && r.shareProcessNamespace == p.shareProcessNamespace
    && Lists(p.volumes, r.volumes) && Lists(p.resourceClaims, r.resourceClaims) && Lists(p.hostAliases, r.hostAliases)
    && r.dnsPolicy == p.dnsPolicy && r.dnsConfig == p.dnsConfig && r.hostname == p.hostname && r.subdomain == p.subdomain
    && r.setHostnameAsFQDN == p.setHostnameAsFQDN && r.enableServiceLinks == p.enableServiceLinks
    && Maps(p.nodeSelector, r.nodeSelector) && r.nodeName == p.nodeName && r.schedulerName == p.schedulerName
    && r.affinity == p.affinity && Lists(p.tolerations, r.tolerations)
    && Lists(p.topologySpreadConstraints, r.topologySpreadConstraints) && r.priorityClassName == p.priorityClassName
    && r.preemptionPolicy == p.preemptionPolicy && Lists(p.schedulingGates, r.schedulingGates) && r.os == p.os
  }

  lemma PodFields(p: PodSpec)
    ensures PodProjects(p, PodForm(p))
  {
    ContainersFields(p.initContainers);
    ContainersFields(p.containers);
  }

  /** The v2 normal form, field by field: everything in its own place, filtered labels, ordered requirements. */
  lemma V2Fields(d: Deployment)
    ensures
      var r := NormalizeV2(d);
      && r.namespace == d.namespace && r.name == d.name
      && LabelsKept(d.labels, r.labels) && LabelsKept(d.podLabels, r.podTemplateLabels)
      && SelectorProjects(d.selector, r.selector) && PodProjects(d.pod, r.pod)
  {
    LabelFields(d.labels);
    LabelFields(d.podLabels);
    SelectorFields(d.selector);
    PodFields(d.pod);
  }

  // ---------- the v2 equivalence, said without the normalizer ----------

  /** A nil slice and an empty one are the same list. */
  predicate SameItems<T(==)>(a: Slice<T>, b: Slice<T>) {
    a == b || (a in {None, Some([])} && b in {None, Some([])})
  }

  predicate SameEntries<V(==)>(a: Dict<V>, b: Dict<V>) {
    a == b || (a in {None, Some(map[])} && b in {None, Some(map[])})
  }

  /** The same variable from the same place; what an inline value says is not looked at. */
  predicate SameEnv(a: EnvVar, b: EnvVar) {
    a.name == b.name && a.valueFrom == b.valueFrom
  }

  /** The same in the same order. */
  ghost predicate Pairwise<T>(same: (T, T) -> bool, a: seq<T>, b: seq<T>) {
    |a| == |b| && forall i :: 0 <= i < |a| ==> same(a[i], b[i])
  }

  ghost predicate SameContainer(a: Container, b: Container) {
    && a.name == b.name && a.image == b.image && SameItems(a.command, b.command) && SameItems(a.args, b.args)
    && a.workingDir == b.workingDir && Pairwise(SameEnv, Items(a.env), Items(b.env)) && SameItems(a.envFrom, b.envFrom)
    && SameItems(a.ports, b.ports) && a.imagePullPolicy == b.imagePullPolicy && SameResources(a.resources, b.resources)
    && SameItems(a.volumeMounts, b.volumeMounts) && SameItems(a.volumeDevices, b.volumeDevices)
    && a.securityContext == b.securityContext && a.livenessProbe == b.livenessProbe
    && a.readinessProbe == b.readinessProbe && a.startupProbe == b.startupProbe
    && a.lifecycle == b.lifecycle && a.restartPolicy == b.restartPolicy
  }

  ghost predicate SameContainers(a: seq<Container>, b: seq<Container>) {
    |a| == |b| && forall i :: 0 <= i < |a| ==> SameContainer(a[i], b[i])
  }

  ghost predicate SamePod(a: PodSpec, b: PodSpec) {
    && SameContainers(Items(a.initContainers), Items(b.initContainers))
    && SameContainers(Items(a.containers), Items(b.containers))
    && a.serviceAccountName == b.serviceAccountName && a.automountServiceAccountToken == b.automountServiceAccountToken
    && SameItems(a.imagePullSecrets, b.imagePullSecrets)
    && a.hostNetwork == b.hostNetwork && a.hostPID == b.hostPID && a.hostIPC == b.hostIPC && a.hostUsers == b.hostUsers
    && a.runtimeClassName == b.runtimeClassName && a.securityContext == b.securityContext
    && a.shareProcessNamespace == b.shareProcessNamespace
    && SameItems(a.volumes, b.volumes) && SameItems(a.resourceClaims, b.resourceClaims)
    && SameItems(a.hostAliases, b.hostAliases) && a.dnsPolicy == b.dnsPolicy && a.dnsConfig == b.dnsConfig
    && a.hostname == b.hostname && a.subdomain == b.subdomain && a.setHostnameAsFQDN == b.setHostnameAsFQDN
    && a.enableServiceLinks == b.enableServiceLinks
    && SameEntries(a.nodeSelector, b.nodeSelector) && a.nodeName == b.nodeName && a.schedulerName == b.schedulerName
    && a.affinity == b.affinity && SameItems(a.tolerations, b.tolerations)
    && SameItems(a.topologySpreadConstraints, b.topologySpreadConstraints) && a.priorityClassName == b.priorityClassName
    && a.preemptionPolicy == b.preemptionPolicy && SameItems(a.schedulingGates, b.schedulingGates) && a.os == b.os
  }

  /**
    The same workload, as far as v2 attests: generated labels, nil versus empty, inline env values,
    selector order, quantity notation, annotations, replicas and status aside.
   */
  ghost predicate SameWorkload(a: Deployment, b: Deployment) {
    && a.namespace == b.namespace && a.name == b.name
    && LabelsAgree(a.labels, b.labels)
    && SelectorsAgree(a.selector, b.selector)
    && LabelsAgree(a.podLabels, b.podLabels)
    && SamePod(a.pod, b.pod)
  }

  lemma ItemsKernel<T>(a: Slice<T>, b: Slice<T>)
    ensures Items(a) == Items(b) <==> SameItems(a, b)
  {
  }

  lemma EnvKernel(a: seq<EnvVar>, b: seq<EnvVar>)
    ensures Map(EnvRefOf, a) == Map(EnvRefOf, b) <==> Pairwise(SameEnv, a, b)
  {
    var x, y := Map(EnvRefOf, a), Map(EnvRefOf, b);
    if x == y {
      forall i | 0 <= i < |a|
        ensures SameEnv(a[i], b[i])
      {
        assert x[i] == y[i];
      }
    }
  }

  lemma ContainerKernel(a: Container, b: Container)
    ensures ContainerFormV2(a) == ContainerFormV2(b) <==> SameContainer(a, b)
  {
    EnvKernel(Items(a.env), Items(b.env));
    ResourceKernel(a.resources, b.resources);
    ItemsKernel(a.command, b.command);
    ItemsKernel(a.args, b.args);
    ItemsKernel(a.envFrom, b.envFrom);
    ItemsKernel(a.ports, b.ports);
    ItemsKernel(a.volumeMounts, b.volumeMounts);
    ItemsKernel(a.volumeDevices, b.volumeDevices);
  }

  lemma ContainersKernel(a: seq<Container>, b: seq<Container>)
    ensures Map(ContainerFormV2, a) == Map(ContainerFormV2, b) <==> SameContainers(a, b)
  {
    var x, y := Map(ContainerFormV2, a), Map(ContainerFormV2, b);
    forall i | 0 <= i < |a| && i < |b|
      ensures x[i] == y[i] <==> SameContainer(a[i], b[i])
    {
      ContainerKernel(a[i], b[i]);
    }
  }

  lemma PodKernel(a: PodSpec, b: PodSpec)
    ensures PodForm(a) == PodForm(b) <==> SamePod(a, b)
  {
    ContainersKernel(Items(a.initContainers), Items(b.initContainers));
    ContainersKernel(Items(a.containers), Items(b.containers));
    ItemsKernel(a.imagePullSecrets, b.imagePullSecrets);
    ItemsKernel(a.volumes, b.volumes);
    ItemsKernel(a.resourceClaims, b.resourceClaims);
    ItemsKernel(a.hostAliases, b.hostAliases);
    ItemsKernel(a.tolerations, b.tolerations);
    ItemsKernel(a.topologySpreadConstraints, b.topologySpreadConstraints);
    ItemsKernel(a.schedulingGates, b.schedulingGates);
    assert Entries(a.nodeSelector) == Entries(b.nodeSelector) <==> SameEntries(a.nodeSelector, b.nodeSelector);
  }

  /** Two Deployments have equal v2 normal forms exactly when they are the same workload. */
  lemma V2Kernel(a: Deployment, b: Deployment)
    ensures NormalizeV2(a) == NormalizeV2(b) <==> SameWorkload(a, b)
  {
    LabelKernel(a.labels, b.labels);
    LabelKernel(a.podLabels, b.podLabels);
    SelectorKernel(a.selector, b.selector);
    PodKernel(a.pod, b.pod);
  }
}
