/** The objects that the Go controller builds for a cluster. */
module GoObjects {
  import opened Options
  import opened MergePatch
  import opened Names
  import opened ClusterSpec
  import opened Plan
  import Text

  type LabelMap = map<string, string>

  datatype EnvVar = Literal(name: string, value: string) | PodNameRef(name: string)

  datatype Volume =
    | EmptyDir(name: string, sizeLimit: Option<string>)
    | FromConfigMap(name: string, configMap: string)
    | FromClaim(name: string, claim: string)

  datatype Mount = Mount(name: string, path: string, readOnly: bool)

  datatype Port = Port(name: string, number: int, nodePort: int)

  datatype Probes = NoProbes | HttpProbes(readiness: string, liveness: string) | TcpProbes(port: string)

  datatype Container = Container(
    name: string,
    image: string,
    pullPolicy: string,
    command: seq<string>,
    env: seq<EnvVar>,
    envFrom: seq<string>,
    ports: seq<Port>,
    resources: Json,
    mounts: seq<Mount>,
    probes: Probes)

  datatype Body =
    | ServiceBody(kind: string, selector: LabelMap, ports: seq<Port>, headless: bool)
    | WorkloadBody(
        replicas: int,
        selector: LabelMap,
        serviceName: string,
        initContainers: seq<Container>,
        container: Container,
        volumes: seq<Volume>)
    | BudgetBody(minAvailable: int, selector: LabelMap)
    | PolicyBody(selector: LabelMap, peers: LabelMap, openPorts: seq<int>)

  /** owner is the uid of the controlling CubeCluster, set just before the object is applied. */
  datatype Object = Object(
    key: Key,
    labels: LabelMap,
    annotations: LabelMap,
    owner: Option<string>,
    body: Body)

  const DEFAULT_CUBE_IMAGE :=
    "cubejs/cube:v1.7.20@sha256:7f14f4be9f3303afe48a16584480c8a9dc15f44c13daf66c2a5b31019025b71a"
  const DEFAULT_STORE_IMAGE :=
    "cubejs/cubestore:v1.7.20@sha256:cd5fe68049204640704a6412a39e7a09eb391fc70890577dd21b5480d85cb219"

  function KeyOf(c: Cluster, kind: Kind, component: Component): Key {
    Key(c.namespace, kind, ObjectName(c.name, component))
  }

  function IdOf(c: Cluster): ClusterId {
    ClusterId(c.namespace, c.name)
  }

  function OrElse(value: string, fallback: string): string {
    if value == "" then fallback else value
  }

  function PullPolicy(c: Cluster): string {
    OrElse(c.spec.imagePullPolicy, "IfNotPresent")
  }

  function Labels(name: string, component: Component): LabelMap {
    var common := map[
      "app.kubernetes.io/name" := "cube",
      "app.kubernetes.io/instance" := name,
      "app.kubernetes.io/component" := Suffix(component),
      "app.kubernetes.io/part-of" := "cube"];
    if Text.HasPrefix(Suffix(component), "cubestore") then common["platform.cube.dev/store" := "true"] else common
  }

  function CubeStoreHost(c: Cluster): string {
    ObjectName(c.name, if StoreMode(c.spec).Clustered? then Router else CubeStore)
  }

  function ApiService(c: Cluster): Object {
    Object(KeyOf(c, Service, Api), Labels(c.name, Api), c.spec.service.annotations, None,
           ServiceBody(OrElse(c.spec.service.kind, "ClusterIP"), Labels(c.name, Api),
                       [Port("http", 4000, c.spec.service.nodePort)], false))
  }

  function CubeEnvironment(c: Cluster, component: Component): seq<EnvVar> {
    [Literal("CUBEJS_DEV_MODE", "false"), Literal("CUBEJS_CUBESTORE_HOST", CubeStoreHost(c)),
     Literal("CUBEJS_TELEMETRY", "false")]
    + (if component.RefreshWorker? then [Literal("CUBEJS_REFRESH_WORKER", "true")] else [])
  }

  function CubeContainer(c: Cluster, component: Component, workload: Workload): Container {
    Container(Suffix(component), OrElse(c.spec.image, DEFAULT_CUBE_IMAGE), PullPolicy(c), [],
              CubeEnvironment(c, component), [c.spec.configurationSecret], [Port("http", 4000, 0)],
              workload.resources, [Mount("model", "/cube/conf/model", true)], HttpProbes("/readyz", "/livez"))
  }

  function ModelLoader(c: Cluster): Container {
    Container("model-loader", OrElse(c.spec.image, DEFAULT_CUBE_IMAGE), PullPolicy(c),
              ["sh", "-c", "cp -L /model-source/* /cube-model/"], [], [], [], Obj(map[]),
              [Mount("model-source", "/model-source", true), Mount("model", "/cube-model", false)], NoProbes)
  }

  function CubeDeployment(c: Cluster, component: Component, workload: Workload, fallback: int): Object {
    Object(KeyOf(c, Deployment, component), Labels(c.name, component), map[], None,
           WorkloadBody(Replicas(workload.replicas, fallback), Labels(c.name, component), "",
                        [ModelLoader(c)], CubeContainer(c, component, workload),
                        [FromConfigMap("model-source", c.spec.modelConfigMap), EmptyDir("model", None)]))
  }

  function ApiBudget(c: Cluster): Object {
    Object(KeyOf(c, PodDisruptionBudget, Api), map[], map[], None, BudgetBody(1, Labels(c.name, Api)))
  }

  function StorePolicy(c: Cluster): Object {
    Object(KeyOf(c, NetworkPolicy, CubeStore), map[], map[], None,
           PolicyBody(map["app.kubernetes.io/instance" := c.name, "platform.cube.dev/store" := "true"],
                      map["app.kubernetes.io/instance" := c.name], [3030, 9001, 9999]))
  }

  function StoreService(c: Cluster, component: Component, headless: bool, ports: seq<Port>): Object {
    Object(KeyOf(c, Service, component), Labels(c.name, component), map[], None,
           ServiceBody("", Labels(c.name, component), ports, headless))
  }

  function StorageEnvironment(storage: RemoteStorage): seq<EnvVar>
    requires storage.kind == "s3" ==> storage.s3.Some?
  {
    if storage.kind == "s3" then
      [Literal("CUBESTORE_S3_BUCKET", storage.s3.value.bucket), Literal("CUBESTORE_S3_REGION", storage.s3.value.region)]
    else [Literal("CUBESTORE_REMOTE_DIR", "/cube/remote")]
  }

  function StorageSecrets(storage: RemoteStorage): seq<string>
    requires storage.kind == "s3" ==> storage.s3.Some?
  {
    if storage.kind == "s3" && storage.s3.value.secretRef != "" then [storage.s3.value.secretRef] else []
  }

  function StorageMounts(storage: RemoteStorage): seq<Mount> {
    [Mount("scratch", "/cube/data", false)]
    + if storage.kind == "s3" then [] else [Mount("remote", "/cube/remote", false)]
  }

  function StoreContainer(c: Cluster, name: string, role: seq<EnvVar>): Container
    requires c.spec.cubeStore.storage.kind == "s3" ==> c.spec.cubeStore.storage.s3.Some?
  {
    var storage := c.spec.cubeStore.storage;
    Container(name, OrElse(c.spec.cubeStore.image, DEFAULT_STORE_IMAGE), PullPolicy(c), [],
              StorageEnvironment(storage) + role,
              StorageSecrets(storage),
              [Port("http", 3030, 0), Port("meta", 9999, 0), Port("worker", 9001, 0)],
              c.spec.cubeStore.resources,
              StorageMounts(storage),
              TcpProbes(if name == "worker" then "worker" else "http"))
  }

  function StoreVolumes(c: Cluster, parse: QuantityParser): seq<Volume>
    requires Buildable(c.spec, parse)
  {
    var size := c.spec.cubeStore.scratchSize;
    var storage := c.spec.cubeStore.storage;
    [EmptyDir("scratch", if size == "" then None else Some(size))]
    + (if storage.kind == "s3" then [] else [FromClaim("remote", storage.claim.value)])
  }

  ghost predicate Sets(env: seq<EnvVar>, name: string, value: string) {
    exists i :: 0 <= i < |env| && env[i] == Literal(name, value)
  }

  ghost predicate Mentions(env: seq<EnvVar>, name: string) {
    exists i :: 0 <= i < |env| && env[i].name == name
  }

  ghost predicate DistinctNames(env: seq<EnvVar>) {
    forall i, j | 0 <= i < j < |env| :: env[i].name != env[j].name
  }

  /** Every mount has its volume and every volume its mount, under names and at paths that differ. */
  ghost predicate Mounted(volumes: seq<Volume>, mounts: seq<Mount>) {
    && |volumes| == |mounts|
    && (forall i | 0 <= i < |mounts| :: mounts[i].name == volumes[i].name)
    && forall i, j | 0 <= i < j < |mounts| :: mounts[i].name != mounts[j].name && mounts[i].path != mounts[j].path
  }

  /** The store keeps its data on the claim when there is one: the claim is a volume, mounted writable
      where the environment says that the data are. */
  ghost predicate KeptOnClaim(claim: string, env: seq<EnvVar>, volumes: seq<Volume>, mounts: seq<Mount>) {
    exists i :: 0 <= i < |volumes| && i < |mounts| && volumes[i] == FromClaim(mounts[i].name, claim)
                && !mounts[i].readOnly && Sets(env, "CUBESTORE_REMOTE_DIR", mounts[i].path)
  }

  /** The store keeps its data in the bucket, with the secret's credentials when one is named. */
  ghost predicate KeptInBucket(s3: S3Storage, env: seq<EnvVar>, envFrom: seq<string>) {
    && Sets(env, "CUBESTORE_S3_BUCKET", s3.bucket) && Sets(env, "CUBESTORE_S3_REGION", s3.region)
    && forall secret :: secret in envFrom <==> secret == s3.secretRef && secret != ""
  }

  /** Exactly one of the two kinds of remote storage is configured, the one that the spec names. */
  ghost predicate StorageConfigured(storage: RemoteStorage, env: seq<EnvVar>, envFrom: seq<string>,
                                    volumes: seq<Volume>, mounts: seq<Mount>)
    requires (storage.kind == "s3" ==> storage.s3.Some?) && (storage.kind != "s3" ==> storage.claim.Some?)
  {
    && DistinctNames(env) && Mounted(volumes, mounts)
    && (Mentions(env, "CUBESTORE_S3_BUCKET") <==> storage.kind == "s3")
    && (Mentions(env, "CUBESTORE_REMOTE_DIR") <==> exists v :: v in volumes && v.FromClaim?)
    && if storage.kind == "s3" then KeptInBucket(storage.s3.value, env, envFrom)
          && forall v | v in volumes :: !v.FromClaim?
       else KeptOnClaim(storage.claim.value, env, volumes, mounts) && envFrom == []
  }

  lemma StorageIsConfigured(c: Cluster, parse: QuantityParser)
    requires Buildable(c.spec, parse)
    ensures var storage := c.spec.cubeStore.storage;
            StorageConfigured(storage, StorageEnvironment(storage), StorageSecrets(storage), StoreVolumes(c, parse),
                              StorageMounts(storage))
  {
    var storage := c.spec.cubeStore.storage;
    var env, volumes, mounts := StorageEnvironment(storage), StoreVolumes(c, parse), StorageMounts(storage);
    if storage.kind == "s3" {
      assert env[0] == Literal("CUBESTORE_S3_BUCKET", storage.s3.value.bucket);
      assert env[1] == Literal("CUBESTORE_S3_REGION", storage.s3.value.region);
    } else {
      assert env[0] == Literal("CUBESTORE_REMOTE_DIR", "/cube/remote");
      assert volumes[1] == FromClaim("remote", storage.claim.value)
        && mounts[1] == Mount("remote", "/cube/remote", false);
      assert volumes[1] in volumes;
    }
  }

  lemma DistinctNamesTogether(a: seq<EnvVar>, b: seq<EnvVar>)
    requires DistinctNames(a) && DistinctNames(b)
    requires forall i, j | 0 <= i < |a| && 0 <= j < |b| :: a[i].name != b[j].name
    ensures DistinctNames(a + b)
  {}

  lemma RolesApart(c: Cluster)
    requires WorkerCount(c.spec) >= 0
    ensures DistinctNames(RouterEnvironment(c)) && DistinctNames(WorkerEnvironment(c))
  {}

  lemma StorageApartFromRoles(c: Cluster, role: seq<EnvVar>)
    requires c.spec.cubeStore.storage.kind == "s3" ==> c.spec.cubeStore.storage.s3.Some?
    requires WorkerCount(c.spec) >= 0 && role in {RouterEnvironment(c), WorkerEnvironment(c)}
    ensures forall i, j | 0 <= i < |StorageEnvironment(c.spec.cubeStore.storage)| && 0 <= j < |role| ::
              StorageEnvironment(c.spec.cubeStore.storage)[i].name != role[j].name
  {}

  /** The environment of a Cube Store container: no variable is set twice, whatever the role and the
      storage. */
  lemma StoreEnvironmentHasNoDuplicates(c: Cluster)
    requires c.spec.cubeStore.storage.kind == "s3" ==> c.spec.cubeStore.storage.s3.Some?
    requires WorkerCount(c.spec) >= 0
    ensures DistinctNames(StorageEnvironment(c.spec.cubeStore.storage))
    ensures DistinctNames(StorageEnvironment(c.spec.cubeStore.storage) + RouterEnvironment(c))
    ensures DistinctNames(StorageEnvironment(c.spec.cubeStore.storage) + WorkerEnvironment(c))
  {
    var storage := StorageEnvironment(c.spec.cubeStore.storage);
    RolesApart(c);
    StorageApartFromRoles(c, RouterEnvironment(c));
    StorageApartFromRoles(c, WorkerEnvironment(c));
    DistinctNamesTogether(storage, RouterEnvironment(c));
    DistinctNamesTogether(storage, WorkerEnvironment(c));
  }

  /** Appends to four slices, and dereferences and parses what only a valid spec has: with a spec that
      passed validation every such step is safe, and the results configure exactly the spec's storage. */
  method StorageConfiguration(c: Cluster, parse: QuantityParser)
    returns (env: seq<EnvVar>, envFrom: seq<string>, volumes: seq<Volume>, mounts: seq<Mount>)
    requires Buildable(c.spec, parse)
    ensures env == StorageEnvironment(c.spec.cubeStore.storage) && envFrom == StorageSecrets(c.spec.cubeStore.storage)
    ensures volumes == StoreVolumes(c, parse) && mounts == StorageMounts(c.spec.cubeStore.storage)
    ensures StorageConfigured(c.spec.cubeStore.storage, env, envFrom, volumes, mounts)
  {
    StorageIsConfigured(c, parse);
    env, envFrom := [], [];
    var sizeLimit := None;
    if c.spec.cubeStore.scratchSize != "" {
      var size := parse(c.spec.cubeStore.scratchSize).value;
      sizeLimit := Some(c.spec.cubeStore.scratchSize);
    }
    volumes := [EmptyDir("scratch", sizeLimit)];
    mounts := [Mount("scratch", "/cube/data", false)];
    var storage := c.spec.cubeStore.storage;
    if storage.kind == "s3" {
      env := env + [Literal("CUBESTORE_S3_BUCKET", storage.s3.value.bucket),
                    Literal("CUBESTORE_S3_REGION", storage.s3.value.region)];
      if storage.s3.value.secretRef != "" { envFrom := envFrom + [storage.s3.value.secretRef]; }
    } else {
      volumes := volumes + [FromClaim("remote", storage.claim.value)];
      mounts := mounts + [Mount("remote", "/cube/remote", false)];
      env := env + [Literal("CUBESTORE_REMOTE_DIR", "/cube/remote")];
    }
  }

  function SingleStoreDeployment(c: Cluster, parse: QuantityParser): Object
    requires Buildable(c.spec, parse)
  {
    Object(KeyOf(c, Deployment, CubeStore), Labels(c.name, CubeStore), map[], None,
           WorkloadBody(1, Labels(c.name, CubeStore), "", [],
                        StoreContainer(c, "cubestore", []), StoreVolumes(c, parse)))
  }

  function Stateful(c: Cluster, component: Component, replicas: int, container: Container,
                    volumes: seq<Volume>): Object
  {
    Object(KeyOf(c, StatefulSet, component), Labels(c.name, component), map[], None,
           WorkloadBody(replicas, Labels(c.name, component), ObjectName(c.name, component), [], container, volumes))
  }

  function WorkerCount(spec: Spec): int {
    Replicas(spec.cubeStore.workers, 2)
  }

  function RouterEnvironment(c: Cluster): seq<EnvVar>
    requires WorkerCount(c.spec) >= 0
  {
    [Literal("CUBESTORE_SERVER_NAME", ObjectName(c.name, Router) + ":9999"), Literal("CUBESTORE_META_PORT", "9999"),
     Literal("CUBESTORE_WORKERS", WorkerAddresses(c.name, WorkerCount(c.spec)))]
  }

  function WorkerEnvironment(c: Cluster): seq<EnvVar>
    requires WorkerCount(c.spec) >= 0
  {
    [PodNameRef("POD_NAME"), Literal("CUBESTORE_SERVER_NAME", WorkerServerName(c.name)),
     Literal("CUBESTORE_WORKER_PORT", "9001"), Literal("CUBESTORE_META_ADDR", ObjectName(c.name, Router) + ":9999"),
     Literal("CUBESTORE_WORKERS", WorkerAddresses(c.name, WorkerCount(c.spec)))]
  }

  /** The object for a slot that is applied in the cluster's mode. */
  function ObjectFor(c: Cluster, parse: QuantityParser, slot: Slot): Object
    requires Buildable(c.spec, parse) && (slot.component in {Router, Worker} ==> StoreMode(c.spec).Clustered?)
  {
    match slot.component
    case Api =>
      (match slot.kind
       case Service => ApiService(c)
       case PodDisruptionBudget => ApiBudget(c)
       case _ => CubeDeployment(c, Api, c.spec.api, 2))
    case RefreshWorker => CubeDeployment(c, RefreshWorker, c.spec.refreshWorker, 1)
    case CubeStore =>
      (match slot.kind
       case NetworkPolicy => StorePolicy(c)
       case Service => StoreService(c, CubeStore, false, [Port("http", 3030, 0)])
       case _ => SingleStoreDeployment(c, parse))
    case Router =>
      if slot.kind.Service? then StoreService(c, Router, false, [Port("http", 3030, 0), Port("meta", 9999, 0)])
      else Stateful(c, Router, 1, StoreContainer(c, "router", RouterEnvironment(c)), StoreVolumes(c, parse))
    case Worker =>
      if slot.kind.Service? then StoreService(c, Worker, true, [Port("worker", 9001, 0)])
      else
        Stateful(c, Worker, WorkerCount(c.spec), StoreContainer(c, "worker", WorkerEnvironment(c)),
                 StoreVolumes(c, parse))
  }

  /** The kinds of objects that each component has in a mode. */
  predicate HasObject(slot: Slot, mode: Mode) {
    match slot.component
    case Api => slot.kind in {Service, Deployment, PodDisruptionBudget}
    case RefreshWorker => slot.kind.Deployment?
    case CubeStore => slot.kind.NetworkPolicy? || (mode.Single? && slot.kind in {Service, Deployment})
    case _ => mode.Clustered? && slot.kind in {Service, StatefulSet}
  }

  lemma PutSlotsHaveObjects(slot: Slot, mode: Mode)
    ensures slot in PutSlots(mode) <==> HasObject(slot, mode)
  {}

  lemma ObjectForHasKey(c: Cluster, parse: QuantityParser, slot: Slot)
    requires Buildable(c.spec, parse) && slot in PutSlots(StoreMode(c.spec))
    ensures ObjectFor(c, parse, slot).key == KeyAt(IdOf(c), slot)
    ensures ObjectFor(c, parse, slot).body.WorkloadBody? <==> slot.kind in {Deployment, StatefulSet}
  {
    PutSlotsHaveObjects(slot, StoreMode(c.spec));
    ObjectHasKey(c, parse, slot);
  }

  lemma ObjectHasKey(c: Cluster, parse: QuantityParser, slot: Slot)
    requires Buildable(c.spec, parse) && HasObject(slot, StoreMode(c.spec))
    ensures ObjectFor(c, parse, slot).key == KeyAt(IdOf(c), slot)
    ensures ObjectFor(c, parse, slot).body.WorkloadBody? <==> slot.kind in {Deployment, StatefulSet}
  {}

  /** The desired objects, in the order in which they are applied. */
  function Objects(c: Cluster, parse: QuantityParser): (objects: seq<Object>)
    requires Buildable(c.spec, parse)
    ensures |objects| == |PutSlots(StoreMode(c.spec))|
  {
    var slots := PutSlots(StoreMode(c.spec));
    seq(|slots|, i requires 0 <= i < |slots| && slots == PutSlots(StoreMode(c.spec)) && Buildable(c.spec, parse) =>
      ObjectFor(c, parse, slots[i]))
  }
}
