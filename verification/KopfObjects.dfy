/** The objects that the Kopf controller builds for a cluster, as the JSON documents it sends. */
module KopfObjects {
  import opened Options
  import opened MergePatch
  import opened Names
  import opened ClusterSpec
  import opened GoObjects
  import opened Plan
  import Text

  /** The parts of a desired document that a patch carries, and its kind. */
  datatype Desired = Desired(kind: Kind, metadata: map<string, Json>, spec: Json)

  function Texts(m: map<string, string>): Json {
    Obj(map k | k in m :: Str(m[k]))
  }

  function Named(name: string, field: string, value: Json): Json {
    Obj(map["name" := Str(name), field := value])
  }

  const CUBE_IMAGE :=
    "cubejs/cube:v1.7.20@sha256:7f14f4be9f3303afe48a16584480c8a9dc15f44c13daf66c2a5b31019025b71a"
  const STORE_IMAGE :=
    "cubejs/cubestore:v1.7.20@sha256:cd5fe68049204640704a6412a39e7a09eb391fc70890577dd21b5480d85cb219"

  /** The prefix test is startswith. */
  function DocumentLabels(name: string, component: Component): map<string, string> {
    var result := map[
      "app.kubernetes.io/name" := "cube",
      "app.kubernetes.io/instance" := name,
      "app.kubernetes.io/component" := Suffix(component),
      "app.kubernetes.io/part-of" := "cube"];
    if "cubestore" <= Suffix(component) then result["platform.cube.dev/store" := "true"] else result
  }

  /** The first operand of "or" that is not empty. */
  function Or(value: string, otherwise: string): string {
    if value != "" then value else otherwise
  }

  function Host(c: Cluster): string {
    c.name + "-" + if StoreMode(c.spec).Clustered? then "cubestore-router" else "cubestore"
  }

  /** The generator's items, joined. */
  function JoinedAddresses(name: string, count: nat): string {
    Text.Join(AddressItems(name, count), ",")
  }

  function AddressItems(name: string, count: nat): (items: seq<string>)
    ensures |items| == count && forall i | 0 <= i < count :: items[i] == AddressItem(name, i)
  {
    seq(count, i requires 0 <= i => AddressItem(name, i))
  }

  function AddressItem(name: string, index: nat): string {
    name + "-cubestore-worker-" + Text.Decimal(index) + "." + name + "-cubestore-worker:9001"
  }

  function Metadata(c: Cluster, component: Component): map<string, Json> {
    map["name" := Str(ObjectName(c.name, component)), "namespace" := Str(c.namespace)]
  }

  function LabelledMetadata(c: Cluster, component: Component): map<string, Json> {
    Metadata(c, component)["labels" := Texts(DocumentLabels(c.name, component))]
  }

  /** metadata.ownerReferences, which apply_object adds. */
  function OwnerReferences(c: Cluster): Json {
    Arr([Obj(map[
      "apiVersion" := Str("platform.cube.dev/v1alpha1"), "kind" := Str("CubeCluster"),
      "name" := Str(c.name), "uid" := Str(c.uid), "controller" := Bool(true), "blockOwnerDeletion" := Bool(true)])])
  }

  function PodSecurityContext(): Json {
    Obj(map["seccompProfile" := Obj(map["type" := Str("RuntimeDefault")])])
  }

  function ContainerSecurityContext(): Json {
    Obj(map["allowPrivilegeEscalation" := Bool(false),
            "capabilities" := Obj(map["drop" := Arr([Str("ALL")])])])
  }

  function HttpProbe(path: string): Json {
    Obj(map["httpGet" := Obj(map["path" := Str(path), "port" := Str("http")]),
            "initialDelaySeconds" := Number(10), "periodSeconds" := Number(10),
            "timeoutSeconds" := Number(5), "failureThreshold" := Number(6)])
  }

  function TcpProbe(port: string): Json {
    Obj(map["tcpSocket" := Obj(map["port" := Str(port)]),
            "initialDelaySeconds" := Number(5), "periodSeconds" := Number(10), "failureThreshold" := Number(6)])
  }

  function Env(name: string, value: string): Json {
    Named(name, "value", Str(value))
  }

  function CubeEnv(c: Cluster, component: Component): seq<Json> {
    [Env("CUBEJS_DEV_MODE", "false"), Env("CUBEJS_CUBESTORE_HOST", Host(c)), Env("CUBEJS_TELEMETRY", "false")]
    + (if component.RefreshWorker? then [Env("CUBEJS_REFRESH_WORKER", "true")] else [])
  }

  function CubeContainerDocument(c: Cluster, component: Component, workload: Workload): Json {
    Obj(map[
      "name" := Str(Suffix(component)),
      "image" := Str(Or(c.spec.image, CUBE_IMAGE)),
      "imagePullPolicy" := Str(Or(c.spec.imagePullPolicy, "IfNotPresent")),
      "env" := Arr(CubeEnv(c, component)),
      "envFrom" := Arr([Obj(map["secretRef" := Obj(map["name" := Str(c.spec.configurationSecret)])])]),
      "ports" := Arr([Named("http", "containerPort", Number(4000))]),
      "resources" := workload.resources,
      "securityContext" := ContainerSecurityContext(),
      "volumeMounts" := Arr([
        Obj(map["name" := Str("model"), "mountPath" := Str("/cube/conf/model"), "readOnly" := Bool(true)])]),
      "readinessProbe" := HttpProbe("/readyz"),
      "livenessProbe" := HttpProbe("/livez")])
  }

  function ModelLoaderDocument(c: Cluster): Json {
    Obj(map[
      "name" := Str("model-loader"),
      "image" := Str(Or(c.spec.image, CUBE_IMAGE)),
      "imagePullPolicy" := Str(Or(c.spec.imagePullPolicy, "IfNotPresent")),
      "command" := Arr([Str("sh"), Str("-c"), Str("cp -L /model-source/* /cube-model/")]),
      "securityContext" := ContainerSecurityContext(),
      "volumeMounts" := Arr([
        Obj(map["name" := Str("model-source"), "mountPath" := Str("/model-source"), "readOnly" := Bool(true)]),
        Named("model", "mountPath", Str("/cube-model"))])])
  }

  /** The spec of a Deployment or StatefulSet; pod is its pod template's spec. */
  function WorkloadDocument(c: Cluster, component: Component, replicas: int, pod: map<string, Json>)
    : map<string, Json>
  {
    var labels := Texts(DocumentLabels(c.name, component));
    map["replicas" := Number(replicas),
        "selector" := Obj(map["matchLabels" := labels]),
        "template" := Obj(map["metadata" := Obj(map["labels" := labels]), "spec" := Obj(pod)])]
  }

  /** The part of a pod template's spec that every workload has. */
  function Pod(containers: seq<Json>, volumes: seq<Json>): map<string, Json> {
    map["securityContext" := PodSecurityContext(), "containers" := Arr(containers), "volumes" := Arr(volumes)]
  }

  function ModelVolumes(c: Cluster): seq<Json> {
    [Named("model-source", "configMap", Obj(map["name" := Str(c.spec.modelConfigMap)])),
     Named("model", "emptyDir", Obj(map[]))]
  }

  function DeploymentDocument(c: Cluster, component: Component, workload: Workload): Desired {
    Desired(Deployment, LabelledMetadata(c, component),
            Obj(WorkloadDocument(c, component, Replicas(workload.replicas, if component.Api? then 2 else 1),
                  Pod([CubeContainerDocument(c, component, workload)], ModelVolumes(c))
                  ["initContainers" := Arr([ModelLoaderDocument(c)])])))
  }

  function StorageEnv(storage: RemoteStorage): seq<Json>
    requires storage.kind == "s3" ==> storage.s3.Some?
  {
    if storage.kind == "s3" then
      [Env("CUBESTORE_S3_BUCKET", storage.s3.value.bucket), Env("CUBESTORE_S3_REGION", storage.s3.value.region)]
    else [Env("CUBESTORE_REMOTE_DIR", "/cube/remote")]
  }

  function StoreContainerDocument(c: Cluster, role: string, roleEnv: seq<Json>): Json
    requires c.spec.cubeStore.storage.kind == "s3" ==> c.spec.cubeStore.storage.s3.Some?
  {
    var storage := c.spec.cubeStore.storage;
    var port := if role == "worker" then "worker" else "http";
    Obj(map[
      "name" := Str(role),
      "image" := Str(Or(c.spec.cubeStore.image, STORE_IMAGE)),
      "imagePullPolicy" := Str(Or(c.spec.imagePullPolicy, "IfNotPresent")),
      "env" := Arr(StorageEnv(storage) + roleEnv),
      "envFrom" := Arr(if storage.kind == "s3" && storage.s3.value.secretRef != ""
                       then [Obj(map["secretRef" := Obj(map["name" := Str(storage.s3.value.secretRef)])])] else []),
      "ports" := Arr([Named("http", "containerPort", Number(3030)), Named("meta", "containerPort", Number(9999)),
                      Named("worker", "containerPort", Number(9001))]),
      "resources" := c.spec.cubeStore.resources,
      "securityContext" := ContainerSecurityContext(),
      "volumeMounts" := Arr([Named("scratch", "mountPath", Str("/cube/data"))]
                            + if storage.kind == "s3" then [] else [Named("remote", "mountPath", Str("/cube/remote"))]),
      "readinessProbe" := TcpProbe(port),
      "livenessProbe" := TcpProbe(port)])
  }

  function StoreVolumeDocuments(c: Cluster, parse: QuantityParser): seq<Json>
    requires Buildable(c.spec, parse)
  {
    var size := c.spec.cubeStore.scratchSize;
    var storage := c.spec.cubeStore.storage;
    [Named("scratch", "emptyDir", Obj(if size == "" then map[] else map["sizeLimit" := Str(size)]))]
    + if storage.kind == "s3" then []
      else [Named("remote", "persistentVolumeClaim", Obj(map["claimName" := Str(storage.claim.value)]))]
  }

  function StorePorts(component: Component): seq<Json> {
    match component
    case CubeStore => [Named("http", "port", Number(3030))]
    case Router => [Named("http", "port", Number(3030)), Named("meta", "port", Number(9999))]
    case _ => [Named("worker", "port", Number(9001))]
  }

  function StoreServiceDocument(c: Cluster, component: Component): Desired {
    var spec := map["selector" := Texts(DocumentLabels(c.name, component)), "ports" := Arr(StorePorts(component))];
    Desired(Service, LabelledMetadata(c, component),
            Obj(if component.Worker? then spec["clusterIP" := Str("None")] else spec))
  }

  function StatefulFields(c: Cluster, component: Component): map<string, Json> {
    map["serviceName" := Str(ObjectName(c.name, component)), "podManagementPolicy" := Str("Parallel")]
  }

  function Role(component: Component): string {
    match component
    case Router => "router"
    case Worker => "worker"
    case _ => "cubestore"
  }

  function RoleEnv(c: Cluster, component: Component): seq<Json>
    requires WorkerCount(c.spec) >= 0 || component.CubeStore?
  {
    match component
    case Router =>
      [Env("CUBESTORE_SERVER_NAME", c.name + "-cubestore-router:9999"), Env("CUBESTORE_META_PORT", "9999"),
       Env("CUBESTORE_WORKERS", JoinedAddresses(c.name, WorkerCount(c.spec)))]
    case Worker =>
      [Named("POD_NAME", "valueFrom", Obj(map["fieldRef" := Obj(map["fieldPath" := Str("metadata.name")])])),
       Env("CUBESTORE_SERVER_NAME", "$(POD_NAME)." + c.name + "-cubestore-worker:9001"),
       Env("CUBESTORE_WORKER_PORT", "9001"),
       Env("CUBESTORE_META_ADDR", c.name + "-cubestore-router:9999"),
       Env("CUBESTORE_WORKERS", JoinedAddresses(c.name, WorkerCount(c.spec)))]
    case _ => []
  }

  function StoreWorkloadDocument(c: Cluster, parse: QuantityParser, component: Component, count: int): Desired
    requires Buildable(c.spec, parse) && (WorkerCount(c.spec) >= 0 || component.CubeStore?)
  {
    var spec := WorkloadDocument(c, component, count,
                                 Pod([StoreContainerDocument(c, Role(component), RoleEnv(c, component))],
                                     StoreVolumeDocuments(c, parse)));
    var stateful := !component.CubeStore?;
    Desired(if stateful then StatefulSet else Deployment, LabelledMetadata(c, component),
            Obj(if stateful then spec + StatefulFields(c, component) else spec))
  }

  function ApiPort(c: Cluster): Json {
    var port := map["name" := Str("http"), "port" := Number(4000)];
    Obj(if c.spec.service.nodePort != 0 then port["nodePort" := Number(c.spec.service.nodePort)] else port)
  }

  function ApiServiceSpec(c: Cluster): Json {
    Obj(map["type" := Str(Or(c.spec.service.kind, "ClusterIP")),
            "selector" := Texts(DocumentLabels(c.name, Api)),
            "ports" := Arr([ApiPort(c)])])
  }

  function ApiServiceDocument(c: Cluster): Desired {
    Desired(Service, LabelledMetadata(c, Api)["annotations" := Texts(c.spec.service.annotations)], ApiServiceSpec(c))
  }

  function BudgetDocument(c: Cluster): Desired {
    Desired(PodDisruptionBudget, Metadata(c, Api),
            Obj(map["minAvailable" := Number(1),
                    "selector" := Obj(map["matchLabels" := Texts(DocumentLabels(c.name, Api))])]))
  }

  function PolicyDocument(c: Cluster): Desired {
    var instance := Texts(map["app.kubernetes.io/instance" := c.name]);
    Desired(NetworkPolicy, Metadata(c, CubeStore),
            Obj(map["podSelector" := Obj(map["matchLabels" := Texts(map[
                      "app.kubernetes.io/instance" := c.name, "platform.cube.dev/store" := "true"])]),
                    "policyTypes" := Arr([Str("Ingress")]),
                    "ingress" := Arr([Obj(map[
                      "from" := Arr([Obj(map["podSelector" := Obj(map["matchLabels" := instance])])]),
                      "ports" := Arr([Obj(map["port" := Number(3030)]), Obj(map["port" := Number(9001)]),
                                      Obj(map["port" := Number(9999)])])])])]))
  }

  /** The document for a slot that is applied in the cluster's mode. */
  function Document(c: Cluster, parse: QuantityParser, slot: Slot): Desired
    requires Buildable(c.spec, parse) && (slot.component in {Router, Worker} ==> StoreMode(c.spec).Clustered?)
  {
    match slot.component
    case Api =>
      (match slot.kind
       case Service => ApiServiceDocument(c)
       case PodDisruptionBudget => BudgetDocument(c)
       case _ => DeploymentDocument(c, Api, c.spec.api))
    case RefreshWorker => DeploymentDocument(c, RefreshWorker, c.spec.refreshWorker)
    case CubeStore =>
      (match slot.kind
       case NetworkPolicy => PolicyDocument(c)
       case Service => StoreServiceDocument(c, CubeStore)
       case _ => StoreWorkloadDocument(c, parse, CubeStore, 1))
    case Router =>
      if slot.kind.Service? then StoreServiceDocument(c, Router) else StoreWorkloadDocument(c, parse, Router, 1)
    case Worker =>
      if slot.kind.Service? then StoreServiceDocument(c, Worker)
      else StoreWorkloadDocument(c, parse, Worker, WorkerCount(c.spec))
  }

  /** The desired documents, in the order in which they are applied. */
  function Documents(c: Cluster, parse: QuantityParser): (documents: seq<Desired>)
    requires Buildable(c.spec, parse)
    ensures |documents| == |PutSlots(StoreMode(c.spec))|
  {
    var slots := PutSlots(StoreMode(c.spec));
    seq(|slots|, i requires 0 <= i < |slots| && slots == PutSlots(StoreMode(c.spec)) && Buildable(c.spec, parse) =>
      Document(c, parse, slots[i]))
  }

  // ---- Applying a document ----

  function ApiVersion(kind: Kind): string {
    match kind
    case Service => "v1"
    case Deployment => "apps/v1"
    case StatefulSet => "apps/v1"
    case PodDisruptionBudget => "policy/v1"
    case NetworkPolicy => "networking.k8s.io/v1"
  }

  function KindName(kind: Kind): string {
    match kind
    case Service => "Service"
    case Deployment => "Deployment"
    case StatefulSet => "StatefulSet"
    case PodDisruptionBudget => "PodDisruptionBudget"
    case NetworkPolicy => "NetworkPolicy"
  }

  /** apply_object writes the owner into the document before it sends it. */
  function Owned(d: Desired, c: Cluster): Desired {
    d.(metadata := d.metadata["ownerReferences" := OwnerReferences(c)])
  }

  function Identity(kind: Kind): map<string, Json> {
    map["apiVersion" := Str(ApiVersion(kind)), "kind" := Str(KindName(kind))]
  }

  /** The body of a create request. */
  function Creation(d: Desired): Json {
    Obj(Identity(d.kind)["metadata" := Obj(d.metadata)]["spec" := d.spec])
  }

  /** The body of a patch request. */
  function Amendment(d: Desired): Json {
    Obj(map["metadata" := Obj(d.metadata), "spec" := d.spec])
  }

  /** Create when the object is absent, otherwise send a merge patch. */
  function CreateOrMerge(stored: Option<Json>, d: Desired): Json {
    if stored.None? then Creation(d) else Patched(stored.value, Amendment(d))
  }
}
