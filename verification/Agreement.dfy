/** Both controllers build the same objects: a Kopf document is the Go object written out as JSON. */
module Agreement {
  import opened Options
  import opened MergePatch
  import opened Names
  import opened ClusterSpec
  import opened Plan
  import opened GoObjects
  import opened KopfObjects
  import Text

  function Each<T>(xs: seq<T>, render: T -> Json): (items: seq<Json>)
    ensures |items| == |xs| && forall i | 0 <= i < |xs| :: items[i] == render(xs[i])
  {
    seq(|xs|, i requires 0 <= i < |xs| => render(xs[i]))
  }

  lemma EachSplits<T>(a: seq<T>, b: seq<T>, render: T -> Json)
    ensures Each(a + b, render) == Each(a, render) + Each(b, render)
  {}

  lemma EachOne<T>(x: T, render: T -> Json)
    ensures Each([x], render) == [render(x)]
  {}

  lemma EachTwo<T>(x: T, y: T, render: T -> Json)
    ensures Each([x, y], render) == [render(x), render(y)]
  {}

  lemma EachThree<T>(x: T, y: T, z: T, render: T -> Json)
    ensures Each([x, y, z], render) == [render(x), render(y), render(z)]
  {}

  // ---- Writing an object out ----

  function RenderEnv(e: EnvVar): Json {
    match e
    case Literal(name, value) => Obj(map["name" := Str(name), "value" := Str(value)])
    case PodNameRef(name) =>
      Obj(map["name" := Str(name),
              "valueFrom" := Obj(map["fieldRef" := Obj(map["fieldPath" := Str("metadata.name")])])])
  }

  function RenderSecret(name: string): Json {
    Obj(map["secretRef" := Obj(map["name" := Str(name)])])
  }

  function RenderPort(p: Port): Json {
    Obj(map["name" := Str(p.name), "containerPort" := Number(p.number)])
  }

  function RenderServicePort(p: Port): Json {
    var port := map["name" := Str(p.name), "port" := Number(p.number)];
    Obj(if p.nodePort != 0 then port["nodePort" := Number(p.nodePort)] else port)
  }

  function RenderMount(m: Mount): Json {
    if m.readOnly then Obj(map["name" := Str(m.name), "mountPath" := Str(m.path), "readOnly" := Bool(true)])
    else Obj(map["name" := Str(m.name), "mountPath" := Str(m.path)])
  }

  function RenderVolume(v: Volume): Json {
    match v
    case EmptyDir(name, limit) =>
      Obj(map["name" := Str(name),
              "emptyDir" := Obj(if limit.None? then map[] else map["sizeLimit" := Str(limit.value)])])
    case FromConfigMap(name, configMap) =>
      Obj(map["name" := Str(name), "configMap" := Obj(map["name" := Str(configMap)])])
    case FromClaim(name, claim) =>
      Obj(map["name" := Str(name), "persistentVolumeClaim" := Obj(map["claimName" := Str(claim)])])
  }

  // What Go's containers and pods have in common, as Go gives it.

  function RenderHttpProbe(path: string): Json {
    Obj(map["httpGet" := Obj(map["path" := Str(path), "port" := Str("http")]),
            "initialDelaySeconds" := Number(10), "periodSeconds" := Number(10),
            "timeoutSeconds" := Number(5), "failureThreshold" := Number(6)])
  }

  function RenderTcpProbe(port: string): Json {
    Obj(map["tcpSocket" := Obj(map["port" := Str(port)]),
            "initialDelaySeconds" := Number(5), "periodSeconds" := Number(10), "failureThreshold" := Number(6)])
  }

  function RenderContainerSecurity(): Json {
    Obj(map["allowPrivilegeEscalation" := Bool(false),
            "capabilities" := Obj(map["drop" := Arr([Str("ALL")])])])
  }

  function RenderText(s: string): Json { Str(s) }

  function RenderOpenPort(port: int): Json { Obj(map["port" := Number(port)]) }

  /** A container that is probed and serves, with every member. */
  function RenderServing(c: Container, readiness: Json, liveness: Json): Json {
    Obj(map[
      "name" := Str(c.name), "image" := Str(c.image), "imagePullPolicy" := Str(c.pullPolicy),
      "env" := Arr(Each(c.env, RenderEnv)), "envFrom" := Arr(Each(c.envFrom, RenderSecret)),
      "ports" := Arr(Each(c.ports, RenderPort)), "resources" := c.resources,
      "securityContext" := RenderContainerSecurity(), "volumeMounts" := Arr(Each(c.mounts, RenderMount)),
      "readinessProbe" := readiness, "livenessProbe" := liveness])
  }

  function RenderContainer(c: Container): Json {
    match c.probes
    case HttpProbes(readiness, liveness) => RenderServing(c, RenderHttpProbe(readiness), RenderHttpProbe(liveness))
    case TcpProbes(port) => RenderServing(c, RenderTcpProbe(port), RenderTcpProbe(port))
    case NoProbes =>
      Obj(map["name" := Str(c.name), "image" := Str(c.image), "imagePullPolicy" := Str(c.pullPolicy),
              "command" := Arr(Each(c.command, RenderText)), "securityContext" := RenderContainerSecurity(),
              "volumeMounts" := Arr(Each(c.mounts, RenderMount))])
  }

  function RenderPod(init: seq<Container>, container: Container, volumes: seq<Volume>): map<string, Json> {
    var pod := map["securityContext" := Obj(map["seccompProfile" := Obj(map["type" := Str("RuntimeDefault")])]),
                   "containers" := Arr([RenderContainer(container)]), "volumes" := Arr(Each(volumes, RenderVolume))];
    if init == [] then pod else pod["initContainers" := Arr(Each(init, RenderContainer))]
  }

  function RenderWorkload(replicas: int, selector: LabelMap, serviceName: string, pod: map<string, Json>)
    : map<string, Json>
  {
    var labels := Texts(selector);
    var workload := map["replicas" := Number(replicas),
                        "selector" := Obj(map["matchLabels" := labels]),
                        "template" := Obj(map["metadata" := Obj(map["labels" := labels]), "spec" := Obj(pod)])];
    if serviceName == "" then workload
    else workload + map["serviceName" := Str(serviceName), "podManagementPolicy" := Str("Parallel")]
  }

  function RenderService(kind: string, selector: LabelMap, ports: seq<Port>, headless: bool): map<string, Json> {
    var open := Arr(Each(ports, RenderServicePort));
    var spec := if kind == "" then map["selector" := Texts(selector), "ports" := open]
                else map["type" := Str(kind), "selector" := Texts(selector), "ports" := open];
    if headless then spec["clusterIP" := Str("None")] else spec
  }

  function RenderPolicy(selector: LabelMap, peers: LabelMap, openPorts: seq<int>): map<string, Json> {
    map["podSelector" := Obj(map["matchLabels" := Texts(selector)]),
        "policyTypes" := Arr([Str("Ingress")]),
        "ingress" := Arr([Obj(map["from" := Arr([Obj(map["podSelector" := Obj(map["matchLabels" := Texts(peers)])])]),
                                  "ports" := Arr(Each(openPorts, RenderOpenPort))])])]
  }

  function RenderBody(body: Body): Json {
    match body
    case ServiceBody(kind, selector, ports, headless) => Obj(RenderService(kind, selector, ports, headless))
    case WorkloadBody(replicas, selector, serviceName, init, container, volumes) =>
      Obj(RenderWorkload(replicas, selector, serviceName, RenderPod(init, container, volumes)))
    case BudgetBody(minAvailable, selector) =>
      Obj(map["minAvailable" := Number(minAvailable), "selector" := Obj(map["matchLabels" := Texts(selector)])])
    case PolicyBody(selector, peers, openPorts) => Obj(RenderPolicy(selector, peers, openPorts))
  }

  function RenderMetadata(o: Object): map<string, Json> {
    var plain := map["name" := Str(o.key.name), "namespace" := Str(o.key.namespace)];
    var labelled := if o.labels == map[] then plain else plain["labels" := Texts(o.labels)];
    if o.annotations == map[] then labelled else labelled["annotations" := Texts(o.annotations)]
  }

  /** Kopf sends empty annotations for the API Service, which mean none. */
  function WithoutEmptyAnnotations(metadata: map<string, Json>): map<string, Json> {
    if "annotations" in metadata && metadata["annotations"] == Obj(map[]) then metadata - {"annotations"} else metadata
  }

  /** The document is the object, member by member. */
  predicate Agree(o: Object, d: Desired) {
    && d.kind == o.key.kind
    && WithoutEmptyAnnotations(d.metadata) == RenderMetadata(o)
    && d.spec == RenderBody(o.body)
  }

  function TextIn(fields: map<string, Json>, name: string): string {
    if name in fields && fields[name].Str? then fields[name].text else ""
  }

  /** Where apply_object sends a document. */
  function DocumentKey(d: Desired): Key {
    Key(TextIn(d.metadata, "namespace"), d.kind, TextIn(d.metadata, "name"))
  }

  lemma AgreeingKeys(o: Object, d: Desired)
    requires Agree(o, d)
    ensures DocumentKey(d) == o.key
  {
    assert TextIn(d.metadata, "name") == TextIn(WithoutEmptyAnnotations(d.metadata), "name");
    assert TextIn(d.metadata, "namespace") == TextIn(WithoutEmptyAnnotations(d.metadata), "namespace");
  }

  // ---- The values that both controllers compute ----

  /** The components of Cube Store are told by the prefix of their names, in either language. */
  lemma StorePrefix(component: Component)
    ensures Text.HasPrefix(Suffix(component), "cubestore") <==> component in {CubeStore, Router, Worker}
    ensures "cubestore" <= Suffix(component) <==> component in {CubeStore, Router, Worker}
  {
    if component in {CubeStore, Router, Worker} {
      assert Suffix(component)[..9] == "cubestore";
    } else {
      assert Suffix(component)[0] != 'c';
    }
  }

  lemma LabelsAgree(name: string, component: Component)
    ensures Labels(name, component) == DocumentLabels(name, component)
  {
    StorePrefix(component);
  }

  lemma HostsAgree(c: Cluster)
    ensures CubeStoreHost(c) == Host(c)
  {}

  /** A component's name followed by more text. */
  lemma NameAndRest(name: string, component: Component, part: string, rest: string)
    requires "-" + Suffix(component) == part
    ensures ObjectName(name, component) + rest == name + (part + rest)
  {
    Text.Associative(name, "-", Suffix(component));
    Text.Associative(name, part, rest);
  }

  lemma RouterMetaAgrees(name: string)
    ensures ObjectName(name, Router) + ":9999" == name + "-cubestore-router:9999"
  {
    NameAndRest(name, Router, "-cubestore-router", ":9999");
    assert "-cubestore-router" + ":9999" == "-cubestore-router:9999";
  }

  lemma AfterWorkerName(front: string, name: string)
    ensures front + ObjectName(name, Worker) + ":9001" == front + name + "-cubestore-worker:9001"
  {
    NameAndRest(name, Worker, "-cubestore-worker", ":9001");
    assert "-cubestore-worker" + ":9001" == "-cubestore-worker:9001";
    Text.Associative(front, ObjectName(name, Worker), ":9001");
    Text.Associative(front, name, "-cubestore-worker:9001");
  }

  lemma AddressAgrees(name: string, i: nat)
    ensures WorkerAddress(name, i) == AddressItem(name, i)
  {
    NameAndRest(name, Worker, "-cubestore-worker", "-");
    assert "-cubestore-worker" + "-" == "-cubestore-worker-";
    assert WorkerPod(name, i) == name + "-cubestore-worker-" + Text.Decimal(i);
    AfterWorkerName(WorkerPod(name, i) + ".", name);
  }

  /** What Go's loop fills a slice with and joins is what Python's generator joins. */
  lemma AddressesAgree(name: string, count: nat)
    ensures WorkerAddresses(name, count) == JoinedAddresses(name, count)
  {
    forall i: nat | i < count ensures WorkerAddressList(name, count)[i] == AddressItems(name, count)[i] {
      AddressAgrees(name, i);
    }
    assert WorkerAddressList(name, count) == AddressItems(name, count);
  }

  lemma ServerNameAgrees(name: string)
    ensures WorkerServerName(name) == "$(POD_NAME)." + name + "-cubestore-worker:9001"
  {
    AfterWorkerName("$(POD_NAME).", name);
  }

  // ---- The objects, one by one ----

  lemma LabelledAgrees(c: Cluster, kind: Kind, component: Component, body: Body)
    ensures WithoutEmptyAnnotations(LabelledMetadata(c, component))
            == RenderMetadata(Object(KeyOf(c, kind, component), Labels(c.name, component), map[], None, body))
  {
    LabelsAgree(c.name, component);
    assert "app.kubernetes.io/name" in Labels(c.name, component);
    assert "annotations" !in LabelledMetadata(c, component);
  }

  lemma PlainAgrees(c: Cluster, kind: Kind, component: Component, body: Body)
    ensures WithoutEmptyAnnotations(Metadata(c, component))
            == RenderMetadata(Object(KeyOf(c, kind, component), map[], map[], None, body))
  {
    assert "annotations" !in Metadata(c, component);
  }

  /** Labels, selectors and annotations are written out name by name. */
  lemma TextsReadBack(m: map<string, string>)
    ensures Texts(m).Obj? && Texts(m).fields.Keys == m.Keys
    ensures forall k | k in m :: Texts(m).fields[k] == Str(m[k])
  {}

  lemma TextsEmpty(m: map<string, string>)
    ensures Texts(m) == Obj(map[]) <==> m == map[]
  {
    assert Texts(m).fields.Keys == m.Keys;
  }

  lemma AnnotatedAgrees(c: Cluster)
    ensures WithoutEmptyAnnotations(ApiServiceDocument(c).metadata) == RenderMetadata(ApiService(c))
  {
    var plain := LabelledMetadata(c, Api);
    LabelsAgree(c.name, Api);
    assert "app.kubernetes.io/name" in Labels(c.name, Api);
    assert "annotations" !in plain;
    TextsEmpty(c.spec.service.annotations);
    assert plain["annotations" := Obj(map[])] - {"annotations"} == plain;
  }

  lemma ApiServiceAgrees(c: Cluster)
    ensures Agree(ApiService(c), ApiServiceDocument(c))
  {
    AnnotatedAgrees(c);
    LabelsAgree(c.name, Api);
    EachOne(Port("http", 4000, c.spec.service.nodePort), RenderServicePort);
    assert OrElse(c.spec.service.kind, "ClusterIP") != "";
  }

  lemma CubeEnvAgrees(c: Cluster, component: Component)
    ensures Each(CubeEnvironment(c, component), RenderEnv) == CubeEnv(c, component)
  {
    HostsAgree(c);
    var a, b, d := Literal("CUBEJS_DEV_MODE", "false"), Literal("CUBEJS_CUBESTORE_HOST", CubeStoreHost(c)),
                   Literal("CUBEJS_TELEMETRY", "false");
    EachSplits([a, b, d],
               if component.RefreshWorker? then [Literal("CUBEJS_REFRESH_WORKER", "true")] else [], RenderEnv);
    EachThree(a, b, d, RenderEnv);
    EachOne(Literal("CUBEJS_REFRESH_WORKER", "true"), RenderEnv);
  }

  lemma CubeContainerAgrees(c: Cluster, component: Component, workload: Workload)
    ensures RenderContainer(CubeContainer(c, component, workload)) == CubeContainerDocument(c, component, workload)
  {
    CubeEnvAgrees(c, component);
    EachOne(c.spec.configurationSecret, RenderSecret);
    EachOne(Port("http", 4000, 0), RenderPort);
    EachOne(Mount("model", "/cube/conf/model", true), RenderMount);
  }

  lemma ModelLoaderAgrees(c: Cluster)
    ensures RenderContainer(ModelLoader(c)) == ModelLoaderDocument(c)
  {
    EachThree("sh", "-c", "cp -L /model-source/* /cube-model/", RenderText);
    EachTwo(Mount("model-source", "/model-source", true), Mount("model", "/cube-model", false), RenderMount);
  }

  lemma CubePodAgrees(c: Cluster, component: Component, workload: Workload)
    ensures RenderPod([ModelLoader(c)], CubeContainer(c, component, workload),
                      [FromConfigMap("model-source", c.spec.modelConfigMap), EmptyDir("model", None)])
            == Pod([CubeContainerDocument(c, component, workload)], ModelVolumes(c))
               ["initContainers" := Arr([ModelLoaderDocument(c)])]
  {
    CubeContainerAgrees(c, component, workload);
    ModelLoaderAgrees(c);
    EachOne(ModelLoader(c), RenderContainer);
    EachTwo(FromConfigMap("model-source", c.spec.modelConfigMap), EmptyDir("model", None), RenderVolume);
  }

  lemma DeploymentAgrees(c: Cluster, component: Component, workload: Workload)
    ensures Agree(CubeDeployment(c, component, workload, if component.Api? then 2 else 1),
                  DeploymentDocument(c, component, workload))
  {
    CubePodAgrees(c, component, workload);
    LabelsAgree(c.name, component);
    var o := CubeDeployment(c, component, workload, if component.Api? then 2 else 1);
    LabelledAgrees(c, Deployment, component, o.body);
  }

  lemma BudgetAgrees(c: Cluster)
    ensures Agree(ApiBudget(c), BudgetDocument(c))
  {
    LabelsAgree(c.name, Api);
    PlainAgrees(c, PodDisruptionBudget, Api, ApiBudget(c).body);
  }

  lemma PolicyAgrees(c: Cluster)
    ensures Agree(StorePolicy(c), PolicyDocument(c))
  {
    PlainAgrees(c, NetworkPolicy, CubeStore, StorePolicy(c).body);
    EachThree(3030, 9001, 9999, RenderOpenPort);
  }

  lemma StoreServiceAgrees(c: Cluster, component: Component, headless: bool, ports: seq<Port>)
    requires headless <==> component.Worker?
    requires Each(ports, RenderServicePort) == StorePorts(component)
    ensures Agree(StoreService(c, component, headless, ports), StoreServiceDocument(c, component))
  {
    LabelsAgree(c.name, component);
    LabelledAgrees(c, Service, component, StoreService(c, component, headless, ports).body);
  }

  lemma StoreServicesAgree(c: Cluster)
    ensures Agree(StoreService(c, CubeStore, false, [Port("http", 3030, 0)]), StoreServiceDocument(c, CubeStore))
    ensures Agree(StoreService(c, Router, false, [Port("http", 3030, 0), Port("meta", 9999, 0)]),
                  StoreServiceDocument(c, Router))
    ensures Agree(StoreService(c, Worker, true, [Port("worker", 9001, 0)]), StoreServiceDocument(c, Worker))
  {
    EachOne(Port("http", 3030, 0), RenderServicePort);
    EachTwo(Port("http", 3030, 0), Port("meta", 9999, 0), RenderServicePort);
    EachOne(Port("worker", 9001, 0), RenderServicePort);
    StoreServiceAgrees(c, CubeStore, false, [Port("http", 3030, 0)]);
    StoreServiceAgrees(c, Router, false, [Port("http", 3030, 0), Port("meta", 9999, 0)]);
    StoreServiceAgrees(c, Worker, true, [Port("worker", 9001, 0)]);
  }

  lemma StorageEnvAgrees(storage: RemoteStorage)
    requires storage.kind == "s3" ==> storage.s3.Some?
    ensures Each(StorageEnvironment(storage), RenderEnv) == StorageEnv(storage)
  {
    if storage.kind == "s3" {
      EachTwo(Literal("CUBESTORE_S3_BUCKET", storage.s3.value.bucket),
              Literal("CUBESTORE_S3_REGION", storage.s3.value.region), RenderEnv);
    } else {
      EachOne(Literal("CUBESTORE_REMOTE_DIR", "/cube/remote"), RenderEnv);
    }
  }

  function RoleEnvironment(c: Cluster, component: Component): seq<EnvVar>
    requires WorkerCount(c.spec) >= 0 || component.CubeStore?
  {
    match component
    case Router => RouterEnvironment(c)
    case Worker => WorkerEnvironment(c)
    case _ => []
  }

  lemma RoleEnvAgrees(c: Cluster, component: Component)
    requires component in {CubeStore, Router, Worker} && (WorkerCount(c.spec) >= 0 || component.CubeStore?)
    ensures Each(RoleEnvironment(c, component), RenderEnv) == RoleEnv(c, component)
  {
    if !component.CubeStore? {
      RouterMetaAgrees(c.name);
      ServerNameAgrees(c.name);
      AddressesAgree(c.name, WorkerCount(c.spec));
    }
    if component.Router? {
      var env := RouterEnvironment(c);
      EachThree(env[0], env[1], env[2], RenderEnv);
    } else if component.Worker? {
      var env := WorkerEnvironment(c);
      assert env == [env[0], env[1], env[2]] + [env[3], env[4]];
      EachSplits([env[0], env[1], env[2]], [env[3], env[4]], RenderEnv);
      EachThree(env[0], env[1], env[2], RenderEnv);
      EachTwo(env[3], env[4], RenderEnv);
    }
  }

  lemma StorageAgrees(storage: RemoteStorage)
    requires storage.kind == "s3" ==> storage.s3.Some?
    ensures Each(StorageSecrets(storage), RenderSecret) ==
            if storage.kind == "s3" && storage.s3.value.secretRef != ""
            then [Obj(map["secretRef" := Obj(map["name" := Str(storage.s3.value.secretRef)])])] else []
    ensures Each(StorageMounts(storage), RenderMount) ==
            [Named("scratch", "mountPath", Str("/cube/data"))]
            + if storage.kind == "s3" then [] else [Named("remote", "mountPath", Str("/cube/remote"))]
  {
    if storage.kind == "s3" { EachOne(storage.s3.value.secretRef, RenderSecret); }
    EachOne(Mount("scratch", "/cube/data", false), RenderMount);
    EachTwo(Mount("scratch", "/cube/data", false), Mount("remote", "/cube/remote", false), RenderMount);
  }

  lemma StoreContainerAgrees(c: Cluster, component: Component)
    requires component in {CubeStore, Router, Worker} && (WorkerCount(c.spec) >= 0 || component.CubeStore?)
    requires c.spec.cubeStore.storage.kind == "s3" ==> c.spec.cubeStore.storage.s3.Some?
    ensures RenderContainer(StoreContainer(c, Role(component), RoleEnvironment(c, component)))
            == StoreContainerDocument(c, Role(component), RoleEnv(c, component))
  {
    var storage := c.spec.cubeStore.storage;
    StorageEnvAgrees(storage);
    RoleEnvAgrees(c, component);
    EachSplits(StorageEnvironment(storage), RoleEnvironment(c, component), RenderEnv);
    StorageAgrees(storage);
    EachThree(Port("http", 3030, 0), Port("meta", 9999, 0), Port("worker", 9001, 0), RenderPort);
  }

  lemma StoreVolumesAgree(c: Cluster, parse: QuantityParser)
    requires Buildable(c.spec, parse)
    ensures Each(StoreVolumes(c, parse), RenderVolume) == StoreVolumeDocuments(c, parse)
  {
    var size, storage := c.spec.cubeStore.scratchSize, c.spec.cubeStore.storage;
    var scratch := EmptyDir("scratch", if size == "" then None else Some(size));
    if storage.kind == "s3" { EachOne(scratch, RenderVolume); }
    else { EachTwo(scratch, FromClaim("remote", storage.claim.value), RenderVolume); }
  }

  lemma StorePodAgrees(c: Cluster, parse: QuantityParser, component: Component)
    requires Buildable(c.spec, parse)
    requires component in {CubeStore, Router, Worker} && (WorkerCount(c.spec) >= 0 || component.CubeStore?)
    ensures RenderPod([], StoreContainer(c, Role(component), RoleEnvironment(c, component)), StoreVolumes(c, parse))
            == Pod([StoreContainerDocument(c, Role(component), RoleEnv(c, component))], StoreVolumeDocuments(c, parse))
  {
    StoreContainerAgrees(c, component);
    StoreVolumesAgree(c, parse);
  }

  lemma SingleStoreAgrees(c: Cluster, parse: QuantityParser)
    requires Buildable(c.spec, parse)
    ensures Agree(SingleStoreDeployment(c, parse), StoreWorkloadDocument(c, parse, CubeStore, 1))
  {
    StorePodAgrees(c, parse, CubeStore);
    LabelsAgree(c.name, CubeStore);
    LabelledAgrees(c, Deployment, CubeStore, SingleStoreDeployment(c, parse).body);
  }

  lemma StatefulAgrees(c: Cluster, parse: QuantityParser, component: Component, count: int)
    requires Buildable(c.spec, parse) && component in {Router, Worker} && WorkerCount(c.spec) >= 0
    ensures Agree(Stateful(c, component, count, StoreContainer(c, Role(component), RoleEnvironment(c, component)),
                           StoreVolumes(c, parse)),
                  StoreWorkloadDocument(c, parse, component, count))
  {
    StorePodAgrees(c, parse, component);
    LabelsAgree(c.name, component);
    var o := Stateful(c, component, count, StoreContainer(c, Role(component), RoleEnvironment(c, component)),
                      StoreVolumes(c, parse));
    LabelledAgrees(c, StatefulSet, component, o.body);
    assert ObjectName(c.name, component) != "";
  }

  lemma CubeBuildersAgree(c: Cluster, parse: QuantityParser, slot: Slot)
    requires Buildable(c.spec, parse) && HasObject(slot, StoreMode(c.spec)) && slot.component in {Api, RefreshWorker}
    ensures Agree(ObjectFor(c, parse, slot), Document(c, parse, slot))
  {
    if slot.component.RefreshWorker? { DeploymentAgrees(c, RefreshWorker, c.spec.refreshWorker); }
    else if slot.kind.Service? { ApiServiceAgrees(c); }
    else if slot.kind.PodDisruptionBudget? { BudgetAgrees(c); }
    else { DeploymentAgrees(c, Api, c.spec.api); }
  }

  lemma StoreServiceBuildersAgree(c: Cluster, parse: QuantityParser, slot: Slot)
    requires Buildable(c.spec, parse) && HasObject(slot, StoreMode(c.spec)) && slot.component !in {Api, RefreshWorker}
    requires slot.kind.Service?
    ensures Agree(ObjectFor(c, parse, slot), Document(c, parse, slot))
  {
    StoreServicesAgree(c);
  }

  lemma StoreWorkloadBuildersAgree(c: Cluster, parse: QuantityParser, slot: Slot)
    requires Buildable(c.spec, parse) && HasObject(slot, StoreMode(c.spec)) && slot.component !in {Api, RefreshWorker}
    requires slot.kind in {Deployment, StatefulSet}
    ensures Agree(ObjectFor(c, parse, slot), Document(c, parse, slot))
  {
    if slot.component.CubeStore? { SingleStoreAgrees(c, parse); }
    else { StatefulAgrees(c, parse, slot.component, if slot.component.Worker? then WorkerCount(c.spec) else 1); }
  }

  lemma StoreBuildersAgree(c: Cluster, parse: QuantityParser, slot: Slot)
    requires Buildable(c.spec, parse) && HasObject(slot, StoreMode(c.spec)) && slot.component !in {Api, RefreshWorker}
    ensures Agree(ObjectFor(c, parse, slot), Document(c, parse, slot))
  {
    if slot.kind.Service? { StoreServiceBuildersAgree(c, parse, slot); }
    else if slot.kind.NetworkPolicy? { PolicyAgrees(c); }
    else { StoreWorkloadBuildersAgree(c, parse, slot); }
  }

  /** For every spec that can be built and for every slot, the two controllers build the same object:
      name, labels, annotations, selectors, replicas, ports, containers, environments and volumes. */
  lemma BuildersAgree(c: Cluster, parse: QuantityParser, slot: Slot)
    requires Buildable(c.spec, parse) && slot in PutSlots(StoreMode(c.spec))
    ensures HasObject(slot, StoreMode(c.spec)) && Agree(ObjectFor(c, parse, slot), Document(c, parse, slot))
  {
    PutSlotsHaveObjects(slot, StoreMode(c.spec));
    if slot.component in {Api, RefreshWorker} { CubeBuildersAgree(c, parse, slot); }
    else { StoreBuildersAgree(c, parse, slot); }
  }
}
