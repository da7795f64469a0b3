/** The CubeCluster resource as both controllers read it. */
module ClusterSpec {
  import opened Options
  import opened MergePatch

  datatype Workload = Workload(replicas: Option<int>, resources: Json)

  datatype S3Storage = S3Storage(bucket: string, region: string, secretRef: string)

  /** claim is persistentVolume.existingClaim; it is None when persistentVolume is absent. */
  datatype RemoteStorage = RemoteStorage(kind: string, claim: Option<string>, s3: Option<S3Storage>)

  /** An absent field reads as "" in Go and as a missing key in Python.  The two differ only for
      mode, which is therefore kept optional. */
  datatype CubeStoreSpec = CubeStoreSpec(
    mode: Option<string>,
    image: string,
    workers: Option<int>,
    resources: Json,
    storage: RemoteStorage,
    scratchSize: string)

  datatype ServiceSpec = ServiceSpec(kind: string, nodePort: int, annotations: map<string, string>)

  datatype Spec = Spec(
    image: string,
    imagePullPolicy: string,
    modelConfigMap: string,
    configurationSecret: string,
    api: Workload,
    refreshWorker: Workload,
    cubeStore: CubeStoreSpec,
    service: ServiceSpec)

  datatype Cluster = Cluster(namespace: string, name: string, uid: string, spec: Spec)

  datatype Mode = Single | Clustered

  function Replicas(value: Option<int>, fallback: int): int {
    if value.Some? then value.value else fallback
  }

  function StoreMode(spec: Spec): Mode {
    if spec.cubeStore.mode == Some("clustered") then Clustered else Single
  }

  /** The reading of a resource quantity such as "2Gi"; None when it is malformed. */
  type QuantityParser = string -> Option<real>

  /** Every partial operation of the object builders has its argument: the nil pointers they
      dereference, the quantity they parse and the slice they allocate. */
  predicate Buildable(spec: Spec, parse: QuantityParser) {
    && (spec.cubeStore.storage.kind == "s3" ==> spec.cubeStore.storage.s3.Some?)
    && (spec.cubeStore.storage.kind != "s3" ==> spec.cubeStore.storage.claim.Some?)
    && (spec.cubeStore.scratchSize != "" ==> parse(spec.cubeStore.scratchSize).Some?)
    && (StoreMode(spec).Clustered? ==> Replicas(spec.cubeStore.workers, 2) >= 0)
  }
}
