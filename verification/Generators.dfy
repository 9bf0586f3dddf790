/** The objects the operator generates from a defaulted spec (pkg/zk/generators.go,
    pkg/zk/synchronizers.go, pkg/utils/zookeeper_util.go). */
module Generators {
  import opened Options
  import opened ClusterSpec
  import opened DefaultingProperties

  /** Name, namespace and uid of the cluster object. */
  datatype Identity = Identity(name: string, namespace: string, uid: string)

  function OrEmpty(labels: Option<Labels>): Labels {
    if labels.Some? then labels.value else map[]
  }

  datatype PodTemplate = PodTemplate(
    labels: Labels, annotations: Option<Labels>, image: string, pullPolicy: string, ports: seq<ContainerPort>,
    readinessProbe: Probe, livenessProbe: Probe, terminationGracePeriodSeconds: int,
    serviceAccountName: string, affinity: Option<Affinity>)

  datatype ClaimTemplate = ClaimTemplate(
    name: string, labels: Labels, accessModes: seq<string>, requests: map<string, nat>)

  datatype StsSpec = StsSpec(
    replicas: int, template: PodTemplate, updateStrategy: string, selector: Labels, claims: seq<ClaimTemplate>)

  datatype StsStatus = StsStatus(
    replicas: int, readyReplicas: int, updatedReplicas: int, currentRevision: string, updateRevision: string)

  datatype Sts = Sts(labels: Labels, spec: StsSpec, status: StsStatus)

  const EMPTY_STS_STATUS := StsStatus(0, 0, 0, "", "")

  /** The references the generators follow without a nil check. */
  predicate Generable(s: Spec) {
    && s.probes.Some? && s.probes.value.readinessProbe.Some? && s.probes.value.livenessProbe.Some?
    && (if IsEphemeral(s.storageType) then s.ephemeral.Some? else s.persistence.Some?)
  }

  function MergedLabels(maps: seq<Labels>): Labels {
    if maps == [] then map[] else MergedLabels(maps[..|maps| - 1]) + maps[|maps| - 1]
  }

  function MakeTemplate(id: Identity, s: Spec): PodTemplate
    requires Generable(s)
  {
    PodTemplate(
      MergedLabels([OrEmpty(s.labels), OrEmpty(s.pod.labels), map["app" := id.name, "kind" := "ZookeeperMember"]]),
      s.pod.annotations, s.image.repository + ":" + s.image.tag, s.image.pullPolicy,
      if s.ports.Some? then s.ports.value else [],
      s.probes.value.readinessProbe.value, s.probes.value.livenessProbe.value,
      s.pod.terminationGracePeriodSeconds, s.pod.serviceAccountName, s.pod.affinity)
  }

  function MakeStatefulSet(id: Identity, s: Spec): Sts
    requires Generable(s)
  {
    var claims :=
      if IsEphemeral(s.storageType) then []
      else [ClaimTemplate("data", MergedLabels([OrEmpty(s.labels), map["app" := id.name, "uid" := id.uid]]),
                          s.persistence.value.accessModes, s.persistence.value.requests)];
    Sts(OrEmpty(s.labels),
        StsSpec(s.replicas, MakeTemplate(id, s), "RollingUpdate", map["app" := id.name], claims), EMPTY_STS_STATUS)
  }

  /** `SyncStatefulSet`: replicas, template and update strategy, nothing else. */
  function SyncedStatefulSet(curr: Sts, next: Sts): Sts {
    curr.(spec := curr.spec.(replicas := next.spec.replicas, template := next.spec.template,
                             updateStrategy := next.spec.updateStrategy))
  }

  datatype ServiceObject = ServiceObject(name: string, labels: Labels, selector: Labels, headless: bool)

  function MakeService(id: Identity, s: Spec, name: string, clusterIP: bool): ServiceObject {
    ServiceObject(name,
                  MergedLabels([OrEmpty(s.labels),
                                map["app" := id.name, "headless" := if clusterIP then "false" else "true"]]),
                  map["app" := id.name], !clusterIP)
  }

  function PdbSelector(id: Identity): Labels { map["app" := id.name] }

  /** The selector `getPVCList` uses. */
  function ClaimSelector(id: Identity): Labels { map["app" := id.name, "uid" := id.uid] }

  predicate Selects(selector: Labels, labels: Labels) {
    forall k | k in selector :: k in labels && labels[k] == selector[k]
  }

  // ----- Ports -----

  /** `ContainerPortByName`: the first match, 0 with an error when there is none. */
  function PortByName(ports: seq<ContainerPort>, name: PortName): Option<int> {
    if ports == [] then None
    else if ports[0].name == name then Some(ports[0].containerPort)
    else PortByName(ports[1..], name)
  }

  datatype Ports = Ports(client: int, quorum: int, leader: int, metrics: int, adminServer: int)

  /** What a scan that keeps the last match leaves behind. */
  function LastPort(ports: seq<ContainerPort>, name: PortName): int {
    if ports == [] then 0
    else if ports[|ports| - 1].name == name then ports[|ports| - 1].containerPort
    else LastPort(ports[..|ports| - 1], name)
  }

  function PortsOf(ports: seq<ContainerPort>): Ports {
    Ports(LastPort(ports, Client), LastPort(ports, Quorum), LastPort(ports, LeaderElection),
          LastPort(ports, Metrics), LastPort(ports, AdminServer))
  }

  method ZookeeperPorts(all: seq<ContainerPort>) returns (ports: Ports)
    ensures ports == PortsOf(all)
  {
    ports := Ports(0, 0, 0, 0, 0);
    for i := 0 to |all|
      invariant ports == PortsOf(all[..i])
    {
      assert all[..i + 1][..i] == all[..i];
      match all[i].name
      case Client => ports := ports.(client := all[i].containerPort);
      case Quorum => ports := ports.(quorum := all[i].containerPort);
      case LeaderElection => ports := ports.(leader := all[i].containerPort);
      case Metrics => ports := ports.(metrics := all[i].containerPort);
      case AdminServer => ports := ports.(adminServer := all[i].containerPort);
      case Other(_) =>
    }
    assert all[..|all|] == all;
  }

  ghost predicate DistinctNames(ports: seq<ContainerPort>) {
    forall i, j | 0 <= i < j < |ports| :: ports[i].name != ports[j].name
  }

  lemma {:induction false} FirstMatch(ports: seq<ContainerPort>, name: PortName, i: nat)
    requires i < |ports| && ports[i].name == name && DistinctNames(ports)
    ensures PortByName(ports, name) == Some(ports[i].containerPort)
  {
    if i > 0 {
      FirstMatch(ports[1..], name, i - 1);
    }
  }

  lemma {:induction false} LastMatch(ports: seq<ContainerPort>, name: PortName, i: nat)
    requires i < |ports| && ports[i].name == name && DistinctNames(ports)
    ensures LastPort(ports, name) == ports[i].containerPort
    decreases |ports|
  {
    if i < |ports| - 1 {
      LastMatch(ports[..|ports| - 1], name, i);
    }
  }

  /** The first-match lookup the ZooKeeper URI uses and the last-match scan the generators use give
      the same port, when the names are distinct. */
  lemma LookupsAgree(ports: seq<ContainerPort>, name: PortName)
    requires DistinctNames(ports) && HasPort(ports, name)
    ensures PortByName(ports, name) == Some(LastPort(ports, name))
  {
    var i :| 0 <= i < |ports| && ports[i].name == name;
    FirstMatch(ports, name, i);
    LastMatch(ports, name, i);
  }

  // ----- Labels -----

  /** Copy one map into another, in whatever order the iteration takes. */
  method CopyInto(base: Labels, extra: Labels) returns (res: Labels)
    ensures res == base + extra
  {
    res := base;
    var left := extra.Keys;
    while left != {}
      invariant left <= extra.Keys
      invariant res.Keys == base.Keys + (extra.Keys - left)
      invariant forall k | k in res :: res[k] == if k in extra && k !in left then extra[k] else base[k]
      decreases |left|
    {
      var k :| k in left;
      res := res[k := extra[k]];
      left := left - {k};
    }
  }

  method MergeLabels(maps: seq<Labels>) returns (res: Labels)
    ensures res == MergedLabels(maps)
  {
    res := map[];
    for i := 0 to |maps|
      invariant res == MergedLabels(maps[..i])
    {
      res := CopyInto(res, maps[i]);
      assert maps[..i + 1][..i] == maps[..i];
    }
    assert maps[..|maps|] == maps;
  }

  lemma TwoMerged(a: Labels, b: Labels)
    ensures MergedLabels([a, b]) == a + b
  {
    assert [a, b][..1] == [a] && [a][..0] == [];
    assert MergedLabels([a]) == a;
  }

  /** Whatever labels the user sets, every selector matches the labels generated for its target. */
  lemma SelectorsMatch(id: Identity, s: Spec, service: string, clusterIP: bool)
    requires Generable(s)
    ensures var sts := MakeStatefulSet(id, s);
            && Selects(sts.spec.selector, sts.spec.template.labels)
            && Selects(MakeService(id, s, service, clusterIP).selector, sts.spec.template.labels)
            && Selects(PdbSelector(id), sts.spec.template.labels)
            && forall i | 0 <= i < |sts.spec.claims| :: Selects(ClaimSelector(id), sts.spec.claims[i].labels)
  {
    var forced := map["app" := id.name, "kind" := "ZookeeperMember"];
    assert forced["app"] == id.name;
    LastMapWins([OrEmpty(s.labels), OrEmpty(s.pod.labels)], forced);
    LastMapWins([OrEmpty(s.labels)], ClaimSelector(id));
    assert [OrEmpty(s.labels), OrEmpty(s.pod.labels)] + [forced] == [OrEmpty(s.labels), OrEmpty(s.pod.labels), forced];
    assert [OrEmpty(s.labels)] + [ClaimSelector(id)] == [OrEmpty(s.labels), ClaimSelector(id)];
  }

  lemma LastMapWins(maps: seq<Labels>, last: Labels)
    ensures Selects(last, MergedLabels(maps + [last]))
  {
    assert (maps + [last])[..|maps|] == maps;
  }

  /** A service carries the spec's labels, its own two overriding them, and says that it is headless exactly
      when it has no cluster address. */
  lemma ServiceSays(id: Identity, s: Spec, name: string, clusterIP: bool)
    ensures var service := MakeService(id, s, name, clusterIP);
            && service.headless == !clusterIP && service.labels.Keys == OrEmpty(s.labels).Keys + {"app", "headless"}
            && forall k | k in service.labels ::
                 service.labels[k] == if k == "app" then id.name
                                      else if k == "headless" then (if clusterIP then "false" else "true")
                                      else OrEmpty(s.labels)[k]
  {
    TwoMerged(OrEmpty(s.labels), map["app" := id.name, "headless" := if clusterIP then "false" else "true"]);
  }

  /** Defaulting fills in every reference the generators follow. */
  lemma DefaultedIsGenerable(s: Spec, name: string)
    ensures Generable(Defaulted(s, name))
    ensures !Lacks(s) ==> Generable(s)
  {
  }

  /** After defaulting, if port names are distinct, both lookups succeed for every well-known port and
      give the same number. */
  lemma DefaultedLookupsAgree(s: Spec, name: string)
    requires DistinctNames(Defaulted(s, name).ports.value)
    ensures var ports := Defaulted(s, name).ports.value;
            var p := PortsOf(ports);
            && PortByName(ports, Client) == Some(p.client) && PortByName(ports, Quorum) == Some(p.quorum)
            && PortByName(ports, LeaderElection) == Some(p.leader) && PortByName(ports, Metrics) == Some(p.metrics)
            && PortByName(ports, AdminServer) == Some(p.adminServer)
  {
    var ports := Defaulted(s, name).ports.value;
    PortsSettle(s.ports);
    LookupsAgree(ports, Client);
    LookupsAgree(ports, Quorum);
    LookupsAgree(ports, LeaderElection);
    LookupsAgree(ports, Metrics);
    LookupsAgree(ports, AdminServer);
  }
}
