/** The desired state of a cluster and its defaulting (api/v1beta1/zookeepercluster_types.go).

    A reference, map or slice that Go may leave nil is an `Option`. Pod scheduling, resources, volumes
    and extra containers are copied through by the operator and are not fields of this model. */
module ClusterSpec {
  import opened Options
  import opened Text

  type Int64 = i: int | MIN_INT64 <= i <= MAX_INT64

  /** Two's complement wrap-around of Go's 64-bit `int`. */
  function Wrap64(i: int): Int64 {
    (i + 0x8000_0000_0000_0000) % 0x1_0000_0000_0000_0000 - 0x8000_0000_0000_0000
  }

  type Labels = map<string, string>

  datatype ContainerImage = ContainerImage(repository: string, tag: string, pullPolicy: string)

  datatype ZookeeperConfig = ZookeeperConfig(
    initLimit: Int64, tickTime: Int64, syncLimit: Int64, globalOutstandingLimit: Int64, preAllocSize: Int64,
    snapCount: Int64, commitLogCount: Int64, snapSizeLimitInKb: Int64, maxCnxns: Int64, maxClientCnxns: Int64,
    minSessionTimeout: Int64, maxSessionTimeout: Int64, autoPurgeSnapRetainCount: Int64,
    autoPurgePurgeInterval: Int64, quorumListenOnAllIPs: bool, additionalConfig: Labels)

  datatype Probe = Probe(initialDelaySeconds: int, periodSeconds: int, failureThreshold: int,
                         successThreshold: int, timeoutSeconds: int)

  datatype Probes = Probes(readinessProbe: Option<Probe>, livenessProbe: Option<Probe>)

  /** The five port names the operator looks for; `Other` is any other text. */
  datatype PortName = Client | Quorum | LeaderElection | Metrics | AdminServer | Other(text: string)

  datatype ContainerPort = ContainerPort(name: PortName, containerPort: int)

  /** A user's affinity is opaque; the default prefers to spread the pods of `app` over hosts. */
  datatype Affinity = UserAffinity(text: string) | SpreadOverHosts(app: string)

  datatype PodPolicy = PodPolicy(
    labels: Option<Labels>, annotations: Option<Labels>, affinity: Option<Affinity>,
    terminationGracePeriodSeconds: int, serviceAccountName: string)

  datatype Persistence = Persistence(reclaimPolicy: string, accessModes: seq<string>, requests: map<string, nat>)

  datatype Ephemeral = Ephemeral(medium: string)

  datatype Spec = Spec(
    image: ContainerImage, labels: Option<Labels>, replicas: int, ports: Option<seq<ContainerPort>>,
    pod: PodPolicy, triggerRollingRestart: bool, storageType: string, persistence: Option<Persistence>,
    ephemeral: Option<Ephemeral>, conf: ZookeeperConfig, kubernetesClusterDomain: string,
    probes: Option<Probes>, maxUnavailableReplicas: int)

  const DEFAULT_IMAGE := ContainerImage("ghcr.io/infonl/zookeeper", "0.2.16", "Always")
  const DEFAULT_READINESS := Probe(10, 10, 3, 1, 10)
  const DEFAULT_LIVENESS := Probe(10, 10, 3, 0, 10)
  const DEFAULT_PORTS: seq<ContainerPort> :=
    [ContainerPort(Client, 2181), ContainerPort(Quorum, 2888), ContainerPort(LeaderElection, 3888),
     ContainerPort(Metrics, 7000), ContainerPort(AdminServer, 8080)]
  const RETAIN := "Retain"
  const DELETE := "Delete"
  /** 20Gi. */
  const DEFAULT_VOLUME_SIZE: nat := 21474836480

  /** `strings.EqualFold(s, "ephemeral")`: no letter of the word folds to a non-ASCII one. */
  function LowerChar(c: char): char {
    if 'A' <= c <= 'Z' then (c as int + 32) as char else c
  }

  predicate IsEphemeral(storageType: string) {
    var word := "ephemeral";
    |storageType| == |word| && forall i | 0 <= i < |word| :: LowerChar(storageType[i]) == word[i]
  }

  predicate ValidPolicy(policy: string) { policy == DELETE || policy == RETAIN }

  predicate HasPort(ports: seq<ContainerPort>, name: PortName) {
    exists i | 0 <= i < |ports| :: ports[i].name == name
  }

  // ----- What a defaulted value is: every missing part filled in. -----

  function OrText(s: string, d: string): string { if s == "" then d else s }

  function OrNumber(i: Int64, d: Int64): Int64 { if i == 0 then d else i }

  function DefaultedImage(c: ContainerImage): ContainerImage {
    ContainerImage(OrText(c.repository, DEFAULT_IMAGE.repository), OrText(c.tag, DEFAULT_IMAGE.tag),
                   OrText(c.pullPolicy, DEFAULT_IMAGE.pullPolicy))
  }

  function DefaultedTicks(c: ZookeeperConfig): ZookeeperConfig {
    c.(initLimit := OrNumber(c.initLimit, 10), tickTime := OrNumber(c.tickTime, 2000),
       syncLimit := OrNumber(c.syncLimit, 2),
       globalOutstandingLimit := OrNumber(c.globalOutstandingLimit, 1000))
  }

  function DefaultedLog(c: ZookeeperConfig): ZookeeperConfig {
    c.(preAllocSize := OrNumber(c.preAllocSize, 65536), snapCount := OrNumber(c.snapCount, 10000),
       commitLogCount := OrNumber(c.commitLogCount, 500),
       snapSizeLimitInKb := OrNumber(c.snapSizeLimitInKb, 4194304),
       maxClientCnxns := OrNumber(c.maxClientCnxns, 60))
  }

  function DefaultedSessions(c: ZookeeperConfig): ZookeeperConfig {
    c.(minSessionTimeout := OrNumber(c.minSessionTimeout, Wrap64(2 * c.tickTime)),
       maxSessionTimeout := OrNumber(c.maxSessionTimeout, Wrap64(20 * c.tickTime)),
       autoPurgeSnapRetainCount := OrNumber(c.autoPurgeSnapRetainCount, 3),
       autoPurgePurgeInterval := OrNumber(c.autoPurgePurgeInterval, 1))
  }

  /** The session timeouts are derived from the defaulted tick. */
  function DefaultedConfig(c: ZookeeperConfig): ZookeeperConfig {
    DefaultedSessions(DefaultedLog(DefaultedTicks(c)))
  }

  function DefaultedProbes(p: Option<Probes>): Probes {
    var q := if p.Some? then p.value else Probes(None, None);
    Probes(Some(if q.readinessProbe.Some? then q.readinessProbe.value else DEFAULT_READINESS),
           Some(if q.livenessProbe.Some? then q.livenessProbe.value else DEFAULT_LIVENESS))
  }

  function UnlessPresent(ports: seq<ContainerPort>, wanted: ContainerPort): seq<ContainerPort> {
    if HasPort(ports, wanted.name) then [] else [wanted]
  }

  /** The user's ports followed by the well-known ones that are missing. */
  function Completed(ports: seq<ContainerPort>): seq<ContainerPort> {
    ports + UnlessPresent(ports, DEFAULT_PORTS[0]) + UnlessPresent(ports, DEFAULT_PORTS[1])
    + UnlessPresent(ports, DEFAULT_PORTS[2]) + UnlessPresent(ports, DEFAULT_PORTS[3])
    + UnlessPresent(ports, DEFAULT_PORTS[4])
  }

  predicate HasAllPorts(ports: seq<ContainerPort>) {
    && HasPort(ports, Client) && HasPort(ports, Quorum) && HasPort(ports, LeaderElection)
    && HasPort(ports, Metrics) && HasPort(ports, AdminServer)
  }

  function DefaultedPorts(ports: Option<seq<ContainerPort>>): seq<ContainerPort> {
    if ports.None? then DEFAULT_PORTS else Completed(ports.value)
  }

  function DefaultedLabels(labels: Option<Labels>, name: string): Labels {
    map["app" := name, "release" := name] + (if labels.Some? then labels.value else map[])
  }

  function DefaultedPod(p: PodPolicy, name: string): PodPolicy {
    p.(labels := Some(DefaultedLabels(p.labels, name)),
       affinity := Some(if p.affinity.Some? then p.affinity.value else SpreadOverHosts(name)),
       terminationGracePeriodSeconds :=
         if p.terminationGracePeriodSeconds == 0 then 30 else p.terminationGracePeriodSeconds,
       serviceAccountName := OrText(p.serviceAccountName, "default"))
  }

  predicate NoStorage(p: Persistence) { "storage" !in p.requests || p.requests["storage"] == 0 }

  function DefaultedPersistence(p: Option<Persistence>): Persistence {
    var q := if p.Some? then p.value else Persistence("", [], map[]);
    Persistence(if ValidPolicy(q.reclaimPolicy) then q.reclaimPolicy else RETAIN, ["ReadWriteOnce"],
                if NoStorage(q) then map["storage" := DEFAULT_VOLUME_SIZE] else q.requests)
  }

  predicate PersistenceLacks(p: Option<Persistence>) {
    p.None? || !ValidPolicy(p.value.reclaimPolicy) || NoStorage(p.value)
  }

  function DefaultedServer(s: Spec): Spec {
    s.(image := DefaultedImage(s.image), conf := DefaultedConfig(s.conf),
       replicas := if s.replicas == 0 then 3 else s.replicas, probes := Some(DefaultedProbes(s.probes)))
  }

  function DefaultedNetwork(s: Spec, name: string): Spec {
    s.(ports := Some(DefaultedPorts(s.ports)), labels := Some(DefaultedLabels(s.labels, name)),
       pod := DefaultedPod(s.pod, name))
  }

  function DefaultedStorage(s: Spec): Spec {
    var t := s.(maxUnavailableReplicas := if s.maxUnavailableReplicas < 1 then 1 else s.maxUnavailableReplicas);
    if IsEphemeral(s.storageType)
    then t.(ephemeral := Some(if s.ephemeral.Some? then s.ephemeral.value else Ephemeral("")))
    else t.(storageType := if PersistenceLacks(s.persistence) then "persistence" else s.storageType,
            persistence := Some(DefaultedPersistence(s.persistence)))
  }

  function Defaulted(s: Spec, name: string): Spec {
    DefaultedStorage(DefaultedNetwork(DefaultedServer(s), name))
  }

  // ----- What the changed flag reports: some part was missing. -----

  predicate ImageLacks(c: ContainerImage) { c.repository == "" || c.tag == "" || c.pullPolicy == "" }

  predicate TicksLack(c: ZookeeperConfig) {
    c.initLimit == 0 || c.tickTime == 0 || c.syncLimit == 0 || c.globalOutstandingLimit == 0
  }

  predicate LogLacks(c: ZookeeperConfig) {
    || c.preAllocSize == 0 || c.snapCount == 0 || c.commitLogCount == 0 || c.snapSizeLimitInKb == 0
    || c.maxClientCnxns == 0
  }

  predicate SessionsLack(c: ZookeeperConfig) {
    || c.minSessionTimeout == 0 || c.maxSessionTimeout == 0
    || c.autoPurgeSnapRetainCount == 0 || c.autoPurgePurgeInterval == 0
  }

  predicate ConfigLacks(c: ZookeeperConfig) {
    TicksLack(c) || LogLacks(c) || SessionsLack(c)
  }

  predicate ProbesLack(p: Option<Probes>) {
    p.None? || p.value.readinessProbe.None? || p.value.livenessProbe.None?
  }

  predicate PortsLack(ports: Option<seq<ContainerPort>>) {
    ports.None? || !HasAllPorts(ports.value)
  }

  predicate LabelsLack(labels: Option<Labels>) {
    labels.None? || "app" !in labels.value || "release" !in labels.value
  }

  predicate PodLacks(p: PodPolicy) {
    LabelsLack(p.labels) || p.affinity.None? || p.terminationGracePeriodSeconds == 0 || p.serviceAccountName == ""
  }

  predicate ServerLacks(s: Spec) {
    ImageLacks(s.image) || ConfigLacks(s.conf) || s.replicas == 0 || ProbesLack(s.probes)
  }

  predicate NetworkLacks(s: Spec) {
    PortsLack(s.ports) || LabelsLack(s.labels) || PodLacks(s.pod)
  }

  predicate StorageLacks(s: Spec) {
    || s.maxUnavailableReplicas < 1
    || (if IsEphemeral(s.storageType) then s.ephemeral.None? else PersistenceLacks(s.persistence))
  }

  predicate Lacks(s: Spec) {
    ServerLacks(s) || NetworkLacks(s) || StorageLacks(s)
  }

  // ----- What defaulting promises, in terms of the fields themselves. -----

  /** A text the user set stays; a missing one becomes the given default. Numbers likewise. */
  ghost predicate TextFilled(before: string, after: string, missing: string) {
    (before != "" ==> after == before) && (before == "" ==> after == missing)
  }

  ghost predicate NumberFilled(before: int, after: int, missing: int) {
    (before != 0 ==> after == before) && (before == 0 ==> after == missing)
  }

  ghost predicate ImageFilled(c: ContainerImage, d: ContainerImage) {
    && TextFilled(c.repository, d.repository, "ghcr.io/infonl/zookeeper")
    && TextFilled(c.tag, d.tag, "0.2.16") && TextFilled(c.pullPolicy, d.pullPolicy, "Always")
  }

  ghost predicate ConfigFilled(c: ZookeeperConfig, d: ZookeeperConfig) {
    && NumberFilled(c.initLimit, d.initLimit, 10) && NumberFilled(c.tickTime, d.tickTime, 2000)
    && NumberFilled(c.syncLimit, d.syncLimit, 2)
    && NumberFilled(c.globalOutstandingLimit, d.globalOutstandingLimit, 1000)
    && NumberFilled(c.preAllocSize, d.preAllocSize, 65536) && NumberFilled(c.snapCount, d.snapCount, 10000)
    && NumberFilled(c.commitLogCount, d.commitLogCount, 500)
    && NumberFilled(c.snapSizeLimitInKb, d.snapSizeLimitInKb, 4194304)
    && d.maxCnxns == c.maxCnxns && NumberFilled(c.maxClientCnxns, d.maxClientCnxns, 60)
    && NumberFilled(c.autoPurgeSnapRetainCount, d.autoPurgeSnapRetainCount, 3)
    && NumberFilled(c.autoPurgePurgeInterval, d.autoPurgePurgeInterval, 1)
    && d.quorumListenOnAllIPs == c.quorumListenOnAllIPs && d.additionalConfig == c.additionalConfig
  }

  /** A missing session timeout is 2 and 20 of the ticks in force; for ticks of up to 2^58 that is no
      other number in 64 bits. */
  ghost predicate SessionsFilled(c: ZookeeperConfig, d: ZookeeperConfig) {
    && NumberFilled(c.minSessionTimeout, d.minSessionTimeout, Wrap64(2 * d.tickTime))
    && NumberFilled(c.maxSessionTimeout, d.maxSessionTimeout, Wrap64(20 * d.tickTime))
    && (-0x400_0000_0000_0000 <= d.tickTime <= 0x400_0000_0000_0000 ==>
          Wrap64(2 * d.tickTime) == 2 * d.tickTime && Wrap64(20 * d.tickTime) == 20 * d.tickTime)
  }

  ghost predicate ProbeFilled(before: Option<Probe>, after: Option<Probe>, missing: Probe) {
    after == Some(if before.Some? then before.value else missing)
  }

  ghost predicate ProbesFilled(p: Option<Probes>, q: Option<Probes>) {
    && q.Some?
    && ProbeFilled(if p.Some? then p.value.readinessProbe else None, q.value.readinessProbe, Probe(10, 10, 3, 1, 10))
    && ProbeFilled(if p.Some? then p.value.livenessProbe else None, q.value.livenessProbe, Probe(10, 10, 3, 0, 10))
  }

  /** A name the user gave a port keeps its ports and gets no other; a missing one gets this number. */
  ghost predicate PortFilled(before: seq<ContainerPort>, after: seq<ContainerPort>, name: PortName, port: int) {
    if HasPort(before, name) then forall p | p in after && p.name == name :: p in before
    else ContainerPort(name, port) in after && forall p | p in after && p.name == name :: p.containerPort == port
  }

  /** The user's ports come first and unchanged, and nothing but well-known names is added. */
  ghost predicate PortsFilled(before: Option<seq<ContainerPort>>, after: Option<seq<ContainerPort>>) {
    var ports := if before.Some? then before.value else [];
    && after.Some? && ports <= after.value
    && PortFilled(ports, after.value, Client, 2181) && PortFilled(ports, after.value, Quorum, 2888)
    && PortFilled(ports, after.value, LeaderElection, 3888) && PortFilled(ports, after.value, Metrics, 7000)
    && PortFilled(ports, after.value, AdminServer, 8080)
    && forall p | p in after.value && p.name.Other? :: p in ports
  }

  ghost predicate LabelsFilled(before: Option<Labels>, after: Option<Labels>, name: string) {
    var labels := if before.Some? then before.value else map[];
    && after.Some? && after.value.Keys == labels.Keys + {"app", "release"}
    && forall k | k in after.value :: after.value[k] == if k in labels then labels[k] else name
  }

  ghost predicate PodFilled(p: PodPolicy, q: PodPolicy, name: string) {
    && LabelsFilled(p.labels, q.labels, name) && q.annotations == p.annotations
    && q.affinity == Some(if p.affinity.Some? then p.affinity.value else SpreadOverHosts(name))
    && NumberFilled(p.terminationGracePeriodSeconds, q.terminationGracePeriodSeconds, 30)
    && TextFilled(p.serviceAccountName, q.serviceAccountName, "default")
  }

  /** A policy that is one of the two and a storage request that is not zero stay, the other requests with
      it. The access modes are the one field that is overwritten. */
  ghost predicate PersistenceFilled(p: Option<Persistence>, q: Option<Persistence>) {
    && q.Some? && q.value.accessModes == ["ReadWriteOnce"]
    && q.value.reclaimPolicy
       == (if p.Some? && p.value.reclaimPolicy in {"Delete", "Retain"} then p.value.reclaimPolicy else "Retain")
    && q.value.requests == (if p.Some? && "storage" in p.value.requests && p.value.requests["storage"] != 0
                            then p.value.requests else map["storage" := 21474836480])
  }

  /** The storage type stays, except that it becomes "persistence" where part of the persistence was missing
      or invalid; the kind of storage that is not in use is left alone. */
  ghost predicate StorageFilled(s: Spec, t: Spec) {
    if IsEphemeral(s.storageType) then
      && t.storageType == s.storageType && t.persistence == s.persistence
      && t.ephemeral == Some(if s.ephemeral.Some? then s.ephemeral.value else Ephemeral(""))
    else
      && t.ephemeral == s.ephemeral && PersistenceFilled(s.persistence, t.persistence)
      && t.storageType == (if s.persistence.Some? && s.persistence.value.(accessModes := ["ReadWriteOnce"])
                                                     == t.persistence.value then s.storageType else "persistence")
  }

  /** What the user set comes back as it was, whatever else is missing; what is missing gets its default. */
  ghost predicate Filled(s: Spec, t: Spec, name: string) {
    && ImageFilled(s.image, t.image) && ConfigFilled(s.conf, t.conf) && SessionsFilled(s.conf, t.conf)
    && NumberFilled(s.replicas, t.replicas, 3) && ProbesFilled(s.probes, t.probes)
    && PortsFilled(s.ports, t.ports) && LabelsFilled(s.labels, t.labels, name) && PodFilled(s.pod, t.pod, name)
    && StorageFilled(s, t) && t.triggerRollingRestart == s.triggerRollingRestart
    && t.kubernetesClusterDomain == s.kubernetesClusterDomain
    && t.maxUnavailableReplicas == (if s.maxUnavailableReplicas >= 1 then s.maxUnavailableReplicas else 1)
  }

  /** The number of a well-known port. */
  function WellKnown(name: PortName): int {
    match name
    case Client => 2181
    case Quorum => 2888
    case LeaderElection => 3888
    case Metrics => 7000
    case AdminServer => 8080
    case Other(_) => 0
  }

  /** What is added is well known, and was missing. */
  ghost predicate Added(ports: seq<ContainerPort>, p: ContainerPort) {
    !p.name.Other? && p.containerPort == WellKnown(p.name) && !HasPort(ports, p.name)
  }

  lemma OneAdded(ports: seq<ContainerPort>, i: nat)
    requires i < 5
    ensures forall p | p in UnlessPresent(ports, DEFAULT_PORTS[i]) :: Added(ports, p)
  {
  }

  lemma AddedPorts(ports: seq<ContainerPort>)
    ensures ports <= Completed(ports)
    ensures forall p | p in Completed(ports) :: p in ports || Added(ports, p)
  {
    OneAdded(ports, 0);
    OneAdded(ports, 1);
    OneAdded(ports, 2);
    OneAdded(ports, 3);
    OneAdded(ports, 4);
  }

  lemma WantedIsAdded(ports: seq<ContainerPort>, i: nat)
    requires i < 5 && !HasPort(ports, DEFAULT_PORTS[i].name)
    ensures DEFAULT_PORTS[i] in Completed(ports)
  {
    assert UnlessPresent(ports, DEFAULT_PORTS[i]) == [DEFAULT_PORTS[i]];
    assert DEFAULT_PORTS[i] in UnlessPresent(ports, DEFAULT_PORTS[i]);
  }

  lemma PortIsFilled(ports: seq<ContainerPort>, after: seq<ContainerPort>, wanted: ContainerPort)
    requires !wanted.name.Other? && wanted.containerPort == WellKnown(wanted.name)
    requires forall p | p in after :: p in ports || Added(ports, p)
    requires HasPort(ports, wanted.name) || wanted in after
    ensures PortFilled(ports, after, wanted.name, wanted.containerPort)
  {
    forall p | p in ports && p.name == wanted.name
      ensures HasPort(ports, wanted.name)
    {
      var j :| 0 <= j < |ports| && ports[j] == p;
    }
  }

  lemma DefaultPortIsFilled(ports: seq<ContainerPort>, i: nat)
    requires i < 5
    ensures PortFilled(ports, Completed(ports), DEFAULT_PORTS[i].name, DEFAULT_PORTS[i].containerPort)
  {
    AddedPorts(ports);
    if !HasPort(ports, DEFAULT_PORTS[i].name) {
      WantedIsAdded(ports, i);
    }
    PortIsFilled(ports, Completed(ports), DEFAULT_PORTS[i]);
  }

  lemma NoPorts()
    ensures Completed([]) == DEFAULT_PORTS
  {
  }

  lemma PortsAreFilled(ports: Option<seq<ContainerPort>>)
    ensures PortsFilled(ports, Some(DefaultedPorts(ports)))
  {
    var before := if ports.Some? then ports.value else [];
    NoPorts();
    AddedPorts(before);
    DefaultPortIsFilled(before, 0);
    DefaultPortIsFilled(before, 1);
    DefaultPortIsFilled(before, 2);
    DefaultPortIsFilled(before, 3);
    DefaultPortIsFilled(before, 4);
  }

  lemma ServerIsFilled(s: Spec)
    ensures var t := DefaultedServer(s);
            && ImageFilled(s.image, t.image) && ConfigFilled(s.conf, t.conf) && SessionsFilled(s.conf, t.conf)
            && NumberFilled(s.replicas, t.replicas, 3) && ProbesFilled(s.probes, t.probes)
  {
  }

  lemma NetworkIsFilled(s: Spec, name: string)
    ensures var t := DefaultedNetwork(s, name);
            && PortsFilled(s.ports, t.ports) && LabelsFilled(s.labels, t.labels, name)
            && PodFilled(s.pod, t.pod, name)
  {
    PortsAreFilled(s.ports);
    LabelsAreFilled(s.labels, name);
    LabelsAreFilled(s.pod.labels, name);
  }

  lemma LabelsAreFilled(labels: Option<Labels>, name: string)
    ensures LabelsFilled(labels, Some(DefaultedLabels(labels, name)), name)
  {
  }

  /** Storage is filled in last, and nothing is read that was filled in before. */
  lemma StoredLast(s: Spec, b: Spec)
    requires b.storageType == s.storageType && b.persistence == s.persistence && b.ephemeral == s.ephemeral
    requires b.maxUnavailableReplicas == s.maxUnavailableReplicas
    ensures var t := DefaultedStorage(b);
            && StorageFilled(s, t)
            && t.maxUnavailableReplicas == (if s.maxUnavailableReplicas >= 1 then s.maxUnavailableReplicas else 1)
            && t == b.(storageType := t.storageType, persistence := t.persistence, ephemeral := t.ephemeral,
                       maxUnavailableReplicas := t.maxUnavailableReplicas)
  {
  }

  lemma DefaultedIsFilled(s: Spec, name: string)
    ensures Filled(s, Defaulted(s, name), name)
  {
    var a := DefaultedServer(s);
    var b := DefaultedNetwork(a, name);
    ServerIsFilled(s);
    NetworkIsFilled(a, name);
    StoredLast(s, b);
  }

  // ----- The withDefaults methods, field by field, with their changed flag. -----

  method ImageWithDefaults(image: ContainerImage) returns (c: ContainerImage, changed: bool)
    ensures c == DefaultedImage(image) && ImageFilled(image, c) && changed == ImageLacks(image)
  {
    c, changed := image, false;
    if c.repository == "" {
      changed := true;
      c := c.(repository := DEFAULT_IMAGE.repository);
    }
    if c.tag == "" {
      changed := true;
      c := c.(tag := DEFAULT_IMAGE.tag);
    }
    if c.pullPolicy == "" {
      changed := true;
      c := c.(pullPolicy := DEFAULT_IMAGE.pullPolicy);
    }
  }

  method TicksWithDefaults(conf: ZookeeperConfig) returns (c: ZookeeperConfig, changed: bool)
    ensures c == DefaultedTicks(conf) && changed == TicksLack(conf)
  {
    c, changed := conf, false;
    if c.initLimit == 0 { changed := true; c := c.(initLimit := 10); }
    if c.tickTime == 0 { changed := true; c := c.(tickTime := 2000); }
    if c.syncLimit == 0 { changed := true; c := c.(syncLimit := 2); }
    if c.globalOutstandingLimit == 0 { changed := true; c := c.(globalOutstandingLimit := 1000); }
  }

  method LogWithDefaults(conf: ZookeeperConfig) returns (c: ZookeeperConfig, changed: bool)
    ensures c == DefaultedLog(conf) && changed == LogLacks(conf)
  {
    c, changed := conf, false;
    if c.preAllocSize == 0 { changed := true; c := c.(preAllocSize := 65536); }
    if c.snapCount == 0 { changed := true; c := c.(snapCount := 10000); }
    if c.commitLogCount == 0 { changed := true; c := c.(commitLogCount := 500); }
    if c.snapSizeLimitInKb == 0 { changed := true; c := c.(snapSizeLimitInKb := 4194304); }
    if c.maxClientCnxns == 0 { changed := true; c := c.(maxClientCnxns := 60); }
  }

  method SessionsWithDefaults(conf: ZookeeperConfig) returns (c: ZookeeperConfig, changed: bool)
    ensures c == DefaultedSessions(conf) && changed == SessionsLack(conf)
  {
    c, changed := conf, false;
    if c.minSessionTimeout == 0 { changed := true; c := c.(minSessionTimeout := Wrap64(2 * c.tickTime)); }
    if c.maxSessionTimeout == 0 { changed := true; c := c.(maxSessionTimeout := Wrap64(20 * c.tickTime)); }
    if c.autoPurgeSnapRetainCount == 0 { changed := true; c := c.(autoPurgeSnapRetainCount := 3); }
    if c.autoPurgePurgeInterval == 0 { changed := true; c := c.(autoPurgePurgeInterval := 1); }
  }

  method ConfigWithDefaults(conf: ZookeeperConfig) returns (c: ZookeeperConfig, changed: bool)
    ensures c == DefaultedConfig(conf) && ConfigFilled(conf, c) && SessionsFilled(conf, c)
    ensures changed == ConfigLacks(conf)
  {
    var logChanged, sessionsChanged: bool;
    c, changed := TicksWithDefaults(conf);
    c, logChanged := LogWithDefaults(c);
    c, sessionsChanged := SessionsWithDefaults(c);
    changed := changed || logChanged || sessionsChanged;
  }

  method ProbesWithDefaults(probes: Option<Probes>) returns (p: Probes, changed: bool)
    ensures p == DefaultedProbes(probes) && changed == ProbesLack(probes)
  {
    changed := probes.None?;
    p := if probes.None? then Probes(None, None) else probes.value;
    if p.readinessProbe.None? {
      changed := true;
      p := p.(readinessProbe := Some(DEFAULT_READINESS));
    }
    if p.livenessProbe.None? {
      changed := true;
      p := p.(livenessProbe := Some(DEFAULT_LIVENESS));
    }
  }

  /** The port scan: one found flag per well-known name. */
  method FindPorts(all: seq<ContainerPort>)
      returns (client: bool, quorum: bool, leader: bool, metrics: bool, admin: bool)
    ensures client == HasPort(all, Client) && quorum == HasPort(all, Quorum) && leader == HasPort(all, LeaderElection)
    ensures metrics == HasPort(all, Metrics) && admin == HasPort(all, AdminServer)
  {
    client, quorum, leader, metrics, admin := false, false, false, false, false;
    for i := 0 to |all|
      invariant client == HasPort(all[..i], Client) && quorum == HasPort(all[..i], Quorum)
      invariant leader == HasPort(all[..i], LeaderElection)
      invariant metrics == HasPort(all[..i], Metrics) && admin == HasPort(all[..i], AdminServer)
    {
      HasPortStep(all, i);
      match all[i].name
      case Client => client := true;
      case Quorum => quorum := true;
      case LeaderElection => leader := true;
      case Metrics => metrics := true;
      case AdminServer => admin := true;
      case Other(_) =>
    }
    assert all[..|all|] == all;
  }

  method PortsWithDefaults(ports: Option<seq<ContainerPort>>) returns (p: seq<ContainerPort>, changed: bool)
    ensures p == DefaultedPorts(ports) && changed == PortsLack(ports)
  {
    if ports.None? {
      return DEFAULT_PORTS, true;
    }
    p, changed := ports.value, false;
    var client, quorum, leader, metrics, admin := FindPorts(p);
    if !client { p := p + [DEFAULT_PORTS[0]]; changed := true; }
    assert p == ports.value + UnlessPresent(ports.value, DEFAULT_PORTS[0]);
    if !quorum { p := p + [DEFAULT_PORTS[1]]; changed := true; }
    if !leader { p := p + [DEFAULT_PORTS[2]]; changed := true; }
    if !metrics { p := p + [DEFAULT_PORTS[3]]; changed := true; }
    if !admin { p := p + [DEFAULT_PORTS[4]]; changed := true; }
  }

  lemma HasPortConcat(a: seq<ContainerPort>, b: seq<ContainerPort>, name: PortName)
    ensures HasPort(a + b, name) <==> HasPort(a, name) || HasPort(b, name)
  {
    if HasPort(a, name) {
      var j :| 0 <= j < |a| && a[j].name == name;
      assert (a + b)[j].name == name;
    }
    if HasPort(b, name) {
      var j :| 0 <= j < |b| && b[j].name == name;
      assert (a + b)[|a| + j].name == name;
    }
  }

  lemma HasPortStep(ports: seq<ContainerPort>, i: nat)
    requires i < |ports|
    ensures forall name :: HasPort(ports[..i + 1], name) <==> HasPort(ports[..i], name) || ports[i].name == name
  {
    assert ports[..i + 1] == ports[..i] + [ports[i]];
    forall name
      ensures HasPort(ports[..i + 1], name) <==> HasPort(ports[..i], name) || ports[i].name == name
    {
      HasPortConcat(ports[..i], [ports[i]], name);
      assert [ports[i]][0] == ports[i];
    }
  }

  method LabelsWithDefaults(labels: Option<Labels>, name: string) returns (l: Labels, changed: bool)
    ensures l == DefaultedLabels(labels, name) && changed == LabelsLack(labels)
  {
    changed := labels.None?;
    l := if labels.None? then map[] else labels.value;
    if "app" !in l {
      l := l["app" := name];
      changed := true;
    }
    if "release" !in l {
      l := l["release" := name];
      changed := true;
    }
  }

  method PodWithDefaults(pod: PodPolicy, name: string) returns (p: PodPolicy, changed: bool)
    ensures p == DefaultedPod(pod, name) && changed == PodLacks(pod)
  {
    p, changed := pod, false;
    if p.terminationGracePeriodSeconds == 0 {
      p := p.(terminationGracePeriodSeconds := 30);
      changed := true;
    }
    if p.serviceAccountName == "" {
      p := p.(serviceAccountName := "default");
      changed := true;
    }
    var labels, relabelled := LabelsWithDefaults(p.labels, name);
    p := p.(labels := Some(labels));
    changed := changed || relabelled;
    if p.affinity.None? {
      p := p.(affinity := Some(SpreadOverHosts(name)));
      changed := true;
    }
  }

  method PersistenceWithDefaults(persistence: Persistence) returns (p: Persistence, changed: bool)
    ensures p == DefaultedPersistence(Some(persistence)) && changed == PersistenceLacks(Some(persistence))
  {
    p, changed := persistence, false;
    if !ValidPolicy(p.reclaimPolicy) {
      changed := true;
      p := p.(reclaimPolicy := RETAIN);
    }
    p := p.(accessModes := ["ReadWriteOnce"]);
    if NoStorage(p) {
      p := p.(requests := map["storage" := DEFAULT_VOLUME_SIZE]);
      changed := true;
    }
  }

  method ServerWithDefaults(spec: Spec) returns (s: Spec, changed: bool)
    ensures s == DefaultedServer(spec) && changed == ServerLacks(spec)
  {
    s := spec;
    var image, imageChanged := ImageWithDefaults(s.image);
    s := s.(image := image);
    changed := imageChanged;
    var conf, confChanged := ConfigWithDefaults(s.conf);
    s := s.(conf := conf);
    changed := changed || confChanged;
    if s.replicas == 0 {
      s := s.(replicas := 3);
      changed := true;
    }
    var probes, probesChanged := ProbesWithDefaults(s.probes);
    s := s.(probes := Some(probes));
    changed := changed || probesChanged;
  }

  method NetworkWithDefaults(spec: Spec, name: string) returns (s: Spec, changed: bool)
    ensures s == DefaultedNetwork(spec, name) && changed == NetworkLacks(spec)
  {
    s := spec;
    var ports, portsChanged := PortsWithDefaults(s.ports);
    s := s.(ports := Some(ports));
    changed := portsChanged;
    var labels, labelsChanged := LabelsWithDefaults(s.labels, name);
    s := s.(labels := Some(labels));
    changed := changed || labelsChanged;
    var pod, podChanged := PodWithDefaults(s.pod, name);
    s := s.(pod := pod);
    changed := changed || podChanged;
  }

  method StorageWithDefaults(spec: Spec) returns (s: Spec, changed: bool)
    ensures s == DefaultedStorage(spec) && changed == StorageLacks(spec)
  {
    s, changed := spec, false;
    if IsEphemeral(s.storageType) {
      if s.ephemeral.None? {
        s := s.(ephemeral := Some(Ephemeral("")));
        changed := true;
      }
    } else {
      if s.persistence.None? {
        s := s.(storageType := "persistence", persistence := Some(Persistence("", [], map[])));
        changed := true;
      }
      var p, persistenceChanged := PersistenceWithDefaults(s.persistence.value);
      s := s.(persistence := Some(p));
      if persistenceChanged {
        s := s.(storageType := "persistence");
        changed := true;
      }
    }
    if s.maxUnavailableReplicas < 1 {
      s := s.(maxUnavailableReplicas := 1);
      changed := true;
    }
  }

  method SpecWithDefaults(spec: Spec, name: string) returns (s: Spec, changed: bool)
    ensures s == Defaulted(spec, name) && Filled(spec, s, name) && changed == Lacks(spec)
  {
    DefaultedIsFilled(spec, name);
    var networkChanged, storageChanged: bool;
    s, changed := ServerWithDefaults(spec);
    s, networkChanged := NetworkWithDefaults(s, name);
    s, storageChanged := StorageWithDefaults(s);
    changed := changed || networkChanged || storageChanged;
  }

  /** `WithDefaults` of the cluster object. */
  method WithDefaults(spec: Spec, name: string) returns (s: Spec, changed: bool)
    ensures s == Defaulted(spec, name) && changed == Lacks(spec)
  {
    s, changed := SpecWithDefaults(spec, name);
  }
}

/** Defaulting is a fixpoint, and its flag is honest, except where a session timeout wraps to zero. */
module DefaultingProperties {
  import opened Options
  import opened Text
  import opened ClusterSpec

  /** A session timeout is derived from a tick so large that it wraps to zero. */
  predicate TimeoutWraps(c: ZookeeperConfig) {
    || (c.minSessionTimeout == 0 && c.tickTime == MIN_INT64)
    || (c.maxSessionTimeout == 0 && c.tickTime in {MIN_INT64, -0x4000_0000_0000_0000, 0x4000_0000_0000_0000})
  }

  lemma TwiceWraps(t: Int64)
    requires t != 0
    ensures Wrap64(2 * t) == 0 <==> t == MIN_INT64
  {
  }

  lemma TwentyTimesWraps(t: Int64)
    requires t != 0
    ensures Wrap64(20 * t) == 0 <==> t in {MIN_INT64, -0x4000_0000_0000_0000, 0x4000_0000_0000_0000}
  {
  }

  /** 2 * t is zero in 64 bits only for t = -2^63, and 20 * t only for the nonzero multiples of 2^62. */
  lemma WrapsToZero(t: Int64)
    requires t != 0
    ensures Wrap64(2 * t) == 0 <==> t == MIN_INT64
    ensures Wrap64(20 * t) == 0 <==> t in {MIN_INT64, -0x4000_0000_0000_0000, 0x4000_0000_0000_0000}
  {
    TwiceWraps(t);
    TwentyTimesWraps(t);
  }

  lemma MissingIsAdded(ports: seq<ContainerPort>, i: nat)
    requires i < 5
    ensures HasPort(Completed(ports), DEFAULT_PORTS[i].name)
  {
    var name := DEFAULT_PORTS[i].name;
    var u0, u1 := UnlessPresent(ports, DEFAULT_PORTS[0]), UnlessPresent(ports, DEFAULT_PORTS[1]);
    var u2 := UnlessPresent(ports, DEFAULT_PORTS[2]);
    var u3, u4 := UnlessPresent(ports, DEFAULT_PORTS[3]), UnlessPresent(ports, DEFAULT_PORTS[4]);
    HasPortConcat(ports, u0, name);
    HasPortConcat(ports + u0, u1, name);
    HasPortConcat(ports + u0 + u1, u2, name);
    HasPortConcat(ports + u0 + u1 + u2, u3, name);
    HasPortConcat(ports + u0 + u1 + u2 + u3, u4, name);
    var u := UnlessPresent(ports, DEFAULT_PORTS[i]);
    assert u != [] ==> u[0].name == name;
    assert HasPort(ports, name) || HasPort(u, name);
  }

  lemma MissingAreAdded(ports: seq<ContainerPort>)
    ensures HasAllPorts(Completed(ports))
  {
    MissingIsAdded(ports, 0);
    MissingIsAdded(ports, 1);
    MissingIsAdded(ports, 2);
    MissingIsAdded(ports, 3);
    MissingIsAdded(ports, 4);
  }

  lemma PortsSettle(ports: Option<seq<ContainerPort>>)
    ensures HasAllPorts(DefaultedPorts(ports))
    ensures ports.Some? && HasAllPorts(ports.value) ==> DefaultedPorts(ports) == ports.value
  {
    if ports.Some? {
      MissingAreAdded(ports.value);
    } else {
      assert DEFAULT_PORTS[0].name == Client && DEFAULT_PORTS[1].name == Quorum
             && DEFAULT_PORTS[2].name == LeaderElection && DEFAULT_PORTS[3].name == Metrics
             && DEFAULT_PORTS[4].name == AdminServer;
    }
  }

  lemma LabelsSettle(labels: Option<Labels>, name: string)
    ensures !LabelsLack(Some(DefaultedLabels(labels, name)))
    ensures !LabelsLack(labels) ==> DefaultedLabels(labels, name) == labels.value
  {
  }

  /** The fields DefaultedServer fills, in a spec that may differ elsewhere. */
  ghost predicate SameServer(s: Spec, t: Spec) {
    s.image == t.image && s.conf == t.conf && s.replicas == t.replicas && s.probes == t.probes
  }

  ghost predicate SameNetwork(s: Spec, t: Spec) {
    s.ports == t.ports && s.labels == t.labels && s.pod == t.pod
  }

  lemma ConfigSettles(c: ZookeeperConfig)
    ensures var d := DefaultedConfig(c);
            && (ConfigLacks(d) <==> TimeoutWraps(c))
            && DefaultedConfig(d) == d
            && (ConfigLacks(c) <==> d != c || TimeoutWraps(c))
  {
    WrapsToZero(OrNumber(c.tickTime, 2000));
  }

  lemma ServerSettles(s: Spec, t: Spec)
    requires SameServer(t, DefaultedServer(s))
    ensures DefaultedServer(t) == t
    ensures ServerLacks(t) <==> TimeoutWraps(s.conf)
  {
    ConfigSettles(s.conf);
  }

  lemma NetworkSettles(s: Spec, name: string, t: Spec)
    requires SameNetwork(t, DefaultedNetwork(s, name))
    ensures DefaultedNetwork(t, name) == t
    ensures !NetworkLacks(t)
  {
    PortsSettle(s.ports);
    PortsSettle(t.ports);
    LabelsSettle(s.labels, name);
    LabelsSettle(t.labels, name);
    LabelsSettle(s.pod.labels, name);
    LabelsSettle(t.pod.labels, name);
  }

  lemma StorageSettles(s: Spec)
    ensures DefaultedStorage(DefaultedStorage(s)) == DefaultedStorage(s)
    ensures !StorageLacks(DefaultedStorage(s))
    ensures SameServer(DefaultedStorage(s), s) && SameNetwork(DefaultedStorage(s), s)
  {
  }

  /** A second defaulting changes nothing, and reports a change exactly when a session timeout
      wrapped to zero: for every other spec the defaulted one is stable. */
  lemma DefaultingIsAFixpoint(s: Spec, name: string)
    ensures Defaulted(Defaulted(s, name), name) == Defaulted(s, name)
    ensures Lacks(Defaulted(s, name)) <==> TimeoutWraps(s.conf)
  {
    var a := DefaultedServer(s);
    var b := DefaultedNetwork(a, name);
    var t := DefaultedStorage(b);
    StorageSettles(b);
    assert SameServer(b, a);
    ServerSettles(s, t);
    NetworkSettles(a, name, t);
  }

  function WithoutAccessModes(s: Spec): Spec {
    if s.persistence.Some? then s.(persistence := Some(s.persistence.value.(accessModes := []))) else s
  }

  lemma ServerFlag(s: Spec)
    ensures ServerLacks(s) <==> !SameServer(DefaultedServer(s), s) || TimeoutWraps(s.conf)
  {
    ConfigSettles(s.conf);
  }

  lemma NetworkFlag(s: Spec, name: string)
    ensures NetworkLacks(s) <==> !SameNetwork(DefaultedNetwork(s, name), s)
  {
    PortsSettle(s.ports);
    LabelsSettle(s.labels, name);
    LabelsSettle(s.pod.labels, name);
  }

  lemma StorageFlag(s: Spec)
    ensures StorageLacks(s) <==> WithoutAccessModes(DefaultedStorage(s)) != WithoutAccessModes(s)
  {
  }

  /** The flag is true exactly when something other than the access modes changed, or a wrapped
      timeout was "filled in" with zero. */
  lemma FlagIsHonest(s: Spec, name: string)
    ensures Lacks(s) <==> WithoutAccessModes(Defaulted(s, name)) != WithoutAccessModes(s) || TimeoutWraps(s.conf)
  {
    var a := DefaultedServer(s);
    var b := DefaultedNetwork(a, name);
    ServerFlag(s);
    NetworkFlag(a, name);
    StorageFlag(b);
    StorageSettles(b);
    assert NetworkLacks(s) == NetworkLacks(a);
    assert StorageLacks(s) == StorageLacks(b);
    if SameServer(a, s) && SameNetwork(b, a) {
      assert a == s && b == s;
    }
  }
}
