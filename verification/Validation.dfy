/** The checks both controllers make before they build anything. */
module Validation {
  import opened Options
  import opened ClusterSpec

  /** The names that exist in the cluster's namespace. */
  datatype References = References(configMaps: set<string>, secrets: set<string>, claims: set<string>)

  datatype Problem =
    | ReferenceMissing | ReferenceNotFound | TooFewReplicas | TooFewWorkers | UnsupportedMode
    | BadScratchSize | NodePortNeedsType | BadStorage

  const DEFAULT_API_REPLICAS := 2
  const DEFAULT_REFRESH_REPLICAS := 1
  const DEFAULT_WORKERS := 2

  predicate StorageAccepted(storage: RemoteStorage, refs: References) {
    if storage.kind == "persistentVolume" then
      storage.claim.Some? && storage.claim.value != "" && storage.claim.value in refs.claims
    else if storage.kind == "s3" then
      && storage.s3.Some? && storage.s3.value.bucket != "" && storage.s3.value.region != ""
      && (storage.s3.value.secretRef != "" ==> storage.s3.value.secretRef in refs.secrets)
    else false
  }

  /** The specs that the Go controller goes on to build objects for. */
  predicate Accepted(spec: Spec, refs: References, parse: QuantityParser) {
    && spec.modelConfigMap != "" && spec.configurationSecret != ""
    && spec.modelConfigMap in refs.configMaps && spec.configurationSecret in refs.secrets
    && Replicas(spec.api.replicas, DEFAULT_API_REPLICAS) >= 1
    && Replicas(spec.refreshWorker.replicas, DEFAULT_REFRESH_REPLICAS) >= 1
    && spec.cubeStore.mode in {None, Some(""), Some("single"), Some("clustered")}
    && (StoreMode(spec).Clustered? ==> Replicas(spec.cubeStore.workers, DEFAULT_WORKERS) >= 1)
    && (spec.cubeStore.scratchSize != "" ==> parse(spec.cubeStore.scratchSize).Some?)
    && (spec.service.nodePort != 0 ==> spec.service.kind in {"NodePort", "LoadBalancer"})
    && StorageAccepted(spec.cubeStore.storage, refs)
  }

  /** The fault that a problem names. */
  predicate Faulty(problem: Problem, spec: Spec, refs: References, parse: QuantityParser) {
    var storage := spec.cubeStore.storage;
    match problem
    case ReferenceMissing => spec.modelConfigMap == "" || spec.configurationSecret == ""
    case ReferenceNotFound =>
      || spec.modelConfigMap !in refs.configMaps || spec.configurationSecret !in refs.secrets
      || (storage.kind == "persistentVolume" && storage.claim.Some? && storage.claim.value !in refs.claims)
      || (storage.kind == "s3" && storage.s3.Some? && storage.s3.value.secretRef !in refs.secrets + {""})
    case TooFewReplicas => Replicas(spec.api.replicas, 2) < 1 || Replicas(spec.refreshWorker.replicas, 1) < 1
    case TooFewWorkers => StoreMode(spec).Clustered? && Replicas(spec.cubeStore.workers, 2) < 1
    case UnsupportedMode => spec.cubeStore.mode !in {None, Some("single"), Some("clustered")}
    case BadScratchSize =>
      var size := parse(spec.cubeStore.scratchSize);
      spec.cubeStore.scratchSize != "" && (size.None? || size.value <= 0.0)
    case NodePortNeedsType => spec.service.nodePort != 0 && spec.service.kind !in {"NodePort", "LoadBalancer"}
    case BadStorage =>
      && (storage.kind == "persistentVolume" ==> storage.claim in {None, Some("")})
      && (storage.kind == "s3" ==>
            storage.s3.None? || storage.s3.value.bucket == "" || storage.s3.value.region == "")
  }

  method GoValidateReferences(spec: Spec, refs: References, parse: QuantityParser) returns (problem: Option<Problem>)
    ensures problem.None? <==> Accepted(spec, refs, parse)
    ensures problem.None? ==> Buildable(spec, parse)
    ensures problem.Some? ==> Faulty(problem.value, spec, refs, parse)
  {
    if spec.modelConfigMap == "" || spec.configurationSecret == "" {
      return Some(ReferenceMissing);
    }
    var kinds := ["ConfigMap", "Secret"];
    for i := 0 to |kinds|
      invariant i >= 1 ==> spec.modelConfigMap in refs.configMaps
      invariant i >= 2 ==> spec.configurationSecret in refs.secrets
    {
      var name := spec.modelConfigMap;
      if kinds[i] == "Secret" { name := spec.configurationSecret; }
      var found := if kinds[i] == "Secret" then name in refs.secrets else name in refs.configMaps;
      if !found { return Some(ReferenceNotFound); }
    }
    if Replicas(spec.api.replicas, 2) < 1 || Replicas(spec.refreshWorker.replicas, 1) < 1 {
      return Some(TooFewReplicas);
    }
    if StoreMode(spec).Clustered? && Replicas(spec.cubeStore.workers, 2) < 1 {
      return Some(TooFewWorkers);
    }
    var mode := if spec.cubeStore.mode.Some? then spec.cubeStore.mode.value else "";
    if mode != "" && mode != "single" && mode != "clustered" {
      return Some(UnsupportedMode);
    }
    if spec.cubeStore.scratchSize != "" && parse(spec.cubeStore.scratchSize).None? {
      return Some(BadScratchSize);
    }
    if spec.service.nodePort != 0 && spec.service.kind != "NodePort" && spec.service.kind != "LoadBalancer" {
      return Some(NodePortNeedsType);
    }
    var storage := spec.cubeStore.storage;
    if storage.kind == "persistentVolume" {
      if storage.claim.None? || storage.claim.value == "" { return Some(BadStorage); }
      if storage.claim.value !in refs.claims { return Some(ReferenceNotFound); }
    } else if storage.kind == "s3" {
      if storage.s3.None? || storage.s3.value.bucket == "" || storage.s3.value.region == "" {
        return Some(BadStorage);
      }
      if storage.s3.value.secretRef != "" && storage.s3.value.secretRef !in refs.secrets {
        return Some(ReferenceNotFound);
      }
    } else {
      return Some(BadStorage);
    }
    return None;
  }

  /** Kopf accepts what Go accepts, except an empty mode that is spelled out and a scratch size
      that is not positive. */
  predicate KopfAccepted(spec: Spec, refs: References, parse: QuantityParser) {
    && Accepted(spec, refs, parse)
    && spec.cubeStore.mode != Some("")
    && (spec.cubeStore.scratchSize != "" ==> parse(spec.cubeStore.scratchSize).value > 0.0)
  }

  method KopfValidateReferences(spec: Spec, refs: References, parse: QuantityParser) returns (problem: Option<Problem>)
    ensures problem.None? <==> KopfAccepted(spec, refs, parse)
    ensures problem.None? ==> Buildable(spec, parse)
    ensures problem.Some? ==> Faulty(problem.value, spec, refs, parse)
  {
    if spec.modelConfigMap == "" || spec.configurationSecret == "" {
      return Some(ReferenceMissing);
    }
    if spec.modelConfigMap !in refs.configMaps { return Some(ReferenceNotFound); }
    if spec.configurationSecret !in refs.secrets { return Some(ReferenceNotFound); }
    if Replicas(spec.api.replicas, 2) < 1 || Replicas(spec.refreshWorker.replicas, 1) < 1 {
      return Some(TooFewReplicas);
    }
    var mode := if spec.cubeStore.mode.Some? then spec.cubeStore.mode.value else "single";
    if mode != "single" && mode != "clustered" {
      return Some(UnsupportedMode);
    }
    if mode == "clustered" && Replicas(spec.cubeStore.workers, 2) < 1 {
      return Some(TooFewWorkers);
    }
    if spec.cubeStore.scratchSize != "" {
      var size := parse(spec.cubeStore.scratchSize);
      if size.None? || size.value <= 0.0 { return Some(BadScratchSize); }
    }
    if spec.service.nodePort != 0 && spec.service.kind != "NodePort" && spec.service.kind != "LoadBalancer" {
      return Some(NodePortNeedsType);
    }
    var storage := spec.cubeStore.storage;
    if storage.kind == "persistentVolume" {
      if storage.claim.None? || storage.claim.value == "" { return Some(BadStorage); }
      if storage.claim.value !in refs.claims { return Some(ReferenceNotFound); }
    } else if storage.kind == "s3" {
      if storage.s3.None? || storage.s3.value.bucket == "" || storage.s3.value.region == "" {
        return Some(BadStorage);
      }
      if storage.s3.value.secretRef != "" && storage.s3.value.secretRef !in refs.secrets {
        return Some(ReferenceNotFound);
      }
    } else {
      return Some(BadStorage);
    }
    return None;
  }

  // ---- What a spec has to say ----

  /** What Go accepts, in the fields of the spec: what is named exists, counts that are given are at least 1,
      and mode, scratch size, node port and storage make sense. */
  lemma AcceptedInWords(spec: Spec, refs: References, parse: QuantityParser)
    ensures Accepted(spec, refs, parse) <==>
              && spec.modelConfigMap != "" && spec.modelConfigMap in refs.configMaps
              && spec.configurationSecret != "" && spec.configurationSecret in refs.secrets
              && (spec.api.replicas.Some? ==> spec.api.replicas.value >= 1)
              && (spec.refreshWorker.replicas.Some? ==> spec.refreshWorker.replicas.value >= 1)
              && (spec.cubeStore.mode.Some? ==> spec.cubeStore.mode.value in {"", "single", "clustered"})
              && (spec.cubeStore.mode == Some("clustered") && spec.cubeStore.workers.Some? ==>
                    spec.cubeStore.workers.value >= 1)
              && (spec.cubeStore.scratchSize != "" ==> parse(spec.cubeStore.scratchSize).Some?)
              && (spec.service.nodePort != 0 ==> spec.service.kind == "NodePort" || spec.service.kind == "LoadBalancer")
              && match spec.cubeStore.storage
                 case RemoteStorage("persistentVolume", Some(claim), _) => claim != "" && claim in refs.claims
                 case RemoteStorage("s3", _, Some(S3Storage(bucket, region, secret))) =>
                   bucket != "" && region != "" && (secret != "" ==> secret in refs.secrets)
                 case _ => false
  {}

  /** What Kopf accepts besides: no empty mode, and a scratch size only when it is positive. */
  lemma KopfAcceptedInWords(spec: Spec, refs: References, parse: QuantityParser)
    ensures KopfAccepted(spec, refs, parse) <==>
              && Accepted(spec, refs, parse)
              && (spec.cubeStore.mode.Some? ==> spec.cubeStore.mode.value in {"single", "clustered"})
              && (spec.cubeStore.scratchSize != "" ==> parse(spec.cubeStore.scratchSize).value > 0.0)
  {}
}
