/** What a spec comes to, in its own terms: how many replicas each workload has, which addresses the Cube Store
    pods are given, which objects are applied and deleted, and when they count as ready. */
module Workloads {
  import opened Options
  import opened MergePatch
  import opened Names
  import opened ClusterSpec
  import opened Plan
  import opened GoObjects
  import opened KopfObjects
  import opened Interleaving
  import opened Reconciler
  import Agreement
  import Text

  // ---- Replicas ----

  predicate GoWorkload(o: Object, key: Key, replicas: int) {
    o.key == key && o.body.WorkloadBody? && o.body.replicas == replicas
  }

  predicate KopfWorkload(d: Desired, key: Key, replicas: int) {
    && d.kind == key.kind && Agreement.DocumentKey(d) == key
    && d.spec.Obj? && "replicas" in d.spec.fields && d.spec.fields["replicas"] == Number(replicas)
  }

  lemma BuiltAs(c: Cluster, parse: QuantityParser, slot: Slot)
    requires Buildable(c.spec, parse) && RunsPods(slot, StoreMode(c.spec))
    ensures GoWorkload(ObjectFor(c, parse, slot), KeyAt(IdOf(c), slot), BuiltReplicas(c, slot.component))
  {
    RunsPodsIsWorkload(c, parse, slot);
    ObjectForHasKey(c, parse, slot);
  }

  lemma BuiltInWords(c: Cluster)
    ensures BuiltReplicas(c, Api) == match c.spec.api.replicas case Some(n) => n case None => 2
    ensures BuiltReplicas(c, RefreshWorker) == match c.spec.refreshWorker.replicas case Some(n) => n case None => 1
    ensures BuiltReplicas(c, Worker) == match c.spec.cubeStore.workers case Some(n) => n case None => 2
    ensures BuiltReplicas(c, Router) == BuiltReplicas(c, CubeStore) == 1
    ensures StoreMode(c.spec).Clustered? <==> c.spec.cubeStore.mode == Some("clustered")
  {}

  lemma KeyInWords(c: Cluster, slot: Slot)
    ensures KeyAt(IdOf(c), slot) == Key(c.namespace, slot.kind, ObjectName(c.name, slot.component))
  {}

  lemma PodSlotsOf(mode: Mode)
    ensures RunsPods(Slot(Deployment, Api), mode) && RunsPods(Slot(Deployment, RefreshWorker), mode)
    ensures mode.Clustered? ==> RunsPods(Slot(StatefulSet, Router), mode) && RunsPods(Slot(StatefulSet, Worker), mode)
    ensures mode.Single? ==> RunsPods(Slot(Deployment, CubeStore), mode)
  {}

  /** The workloads that Go builds have the replicas that the spec gives, or the defaults. */
  lemma GoReplicas(c: Cluster, parse: QuantityParser)
    requires Buildable(c.spec, parse)
    ensures GoWorkload(ObjectFor(c, parse, Slot(Deployment, Api)), Key(c.namespace, Deployment, c.name + "-api"),
                       match c.spec.api.replicas case Some(n) => n case None => 2)
    ensures GoWorkload(ObjectFor(c, parse, Slot(Deployment, RefreshWorker)),
                       Key(c.namespace, Deployment, c.name + "-refresh-worker"),
                       match c.spec.refreshWorker.replicas case Some(n) => n case None => 1)
    ensures if c.spec.cubeStore.mode == Some("clustered") then
              && GoWorkload(ObjectFor(c, parse, Slot(StatefulSet, Router)),
                            Key(c.namespace, StatefulSet, c.name + "-cubestore-router"), 1)
              && GoWorkload(ObjectFor(c, parse, Slot(StatefulSet, Worker)),
                            Key(c.namespace, StatefulSet, c.name + "-cubestore-worker"),
                            match c.spec.cubeStore.workers case Some(n) => n case None => 2)
            else
              GoWorkload(ObjectFor(c, parse, Slot(Deployment, CubeStore)),
                         Key(c.namespace, Deployment, c.name + "-cubestore"), 1)
  {
    NamesInWords(c.name);
    BuiltInWords(c);
    PodSlotsOf(StoreMode(c.spec));
    BuiltAs(c, parse, Slot(Deployment, Api));
    BuiltAs(c, parse, Slot(Deployment, RefreshWorker));
    if StoreMode(c.spec).Clustered? {
      BuiltAs(c, parse, Slot(StatefulSet, Router));
      BuiltAs(c, parse, Slot(StatefulSet, Worker));
    } else {
      BuiltAs(c, parse, Slot(Deployment, CubeStore));
    }
  }

  lemma RenderedReplicas(body: Body)
    requires body.WorkloadBody?
    ensures var spec := Agreement.RenderBody(body);
            spec.Obj? && "replicas" in spec.fields && spec.fields["replicas"] == Number(body.replicas)
  {}

  lemma DocumentedAs(c: Cluster, parse: QuantityParser, slot: Slot)
    requires Buildable(c.spec, parse) && RunsPods(slot, StoreMode(c.spec))
    ensures KopfWorkload(Document(c, parse, slot), KeyAt(IdOf(c), slot), BuiltReplicas(c, slot.component))
  {
    RunsPodsIsWorkload(c, parse, slot);
    BuiltAs(c, parse, slot);
    var o, d := ObjectFor(c, parse, slot), Document(c, parse, slot);
    Agreement.BuildersAgree(c, parse, slot);
    Agreement.AgreeingKeys(o, d);
    RenderedReplicas(o.body);
  }

  /** And so have those of the Kopf controller's documents. */
  lemma KopfReplicas(c: Cluster, parse: QuantityParser)
    requires Buildable(c.spec, parse)
    ensures KopfWorkload(Document(c, parse, Slot(Deployment, Api)), Key(c.namespace, Deployment, c.name + "-api"),
                         match c.spec.api.replicas case Some(n) => n case None => 2)
    ensures KopfWorkload(Document(c, parse, Slot(Deployment, RefreshWorker)),
                         Key(c.namespace, Deployment, c.name + "-refresh-worker"),
                         match c.spec.refreshWorker.replicas case Some(n) => n case None => 1)
    ensures if c.spec.cubeStore.mode == Some("clustered") then
              && KopfWorkload(Document(c, parse, Slot(StatefulSet, Router)),
                              Key(c.namespace, StatefulSet, c.name + "-cubestore-router"), 1)
              && KopfWorkload(Document(c, parse, Slot(StatefulSet, Worker)),
                              Key(c.namespace, StatefulSet, c.name + "-cubestore-worker"),
                              match c.spec.cubeStore.workers case Some(n) => n case None => 2)
            else
              KopfWorkload(Document(c, parse, Slot(Deployment, CubeStore)),
                           Key(c.namespace, Deployment, c.name + "-cubestore"), 1)
  {
    NamesInWords(c.name);
    BuiltInWords(c);
    PodSlotsOf(StoreMode(c.spec));
    DocumentedAs(c, parse, Slot(Deployment, Api));
    DocumentedAs(c, parse, Slot(Deployment, RefreshWorker));
    if StoreMode(c.spec).Clustered? {
      DocumentedAs(c, parse, Slot(StatefulSet, Router));
      DocumentedAs(c, parse, Slot(StatefulSet, Worker));
    } else {
      DocumentedAs(c, parse, Slot(Deployment, CubeStore));
    }
  }

  // ---- Readiness ----

  predicate Shows(observe: Observation, key: Key, replicas: int) {
    observe(key).Some? && observe(key).value >= replicas
  }

  /** A cluster's workloads are all ready exactly when each of them is read with as many ready replicas as the
      spec gives it, or the default when it gives none. */
  lemma ReadyMeansEveryReplica(c: Cluster, parse: QuantityParser, observe: Observation)
    requires Buildable(c.spec, parse)
    ensures AllReady(c, parse, observe) <==>
              && Shows(observe, Key(c.namespace, Deployment, c.name + "-api"),
                       match c.spec.api.replicas case Some(n) => n case None => 2)
              && Shows(observe, Key(c.namespace, Deployment, c.name + "-refresh-worker"),
                       match c.spec.refreshWorker.replicas case Some(n) => n case None => 1)
              && if c.spec.cubeStore.mode == Some("clustered") then
                   && Shows(observe, Key(c.namespace, StatefulSet, c.name + "-cubestore-router"), 1)
                   && Shows(observe, Key(c.namespace, StatefulSet, c.name + "-cubestore-worker"),
                            match c.spec.cubeStore.workers case Some(n) => n case None => 2)
                 else Shows(observe, Key(c.namespace, Deployment, c.name + "-cubestore"), 1)
  {
    NamesInWords(c.name);
    BuiltInWords(c);
    AllReadyInOrder(c, parse, observe);
    var slots := PodSlots(StoreMode(c.spec));
    assert slots[0] == Slot(Deployment, Api) && slots[1] == Slot(Deployment, RefreshWorker);
    if StoreMode(c.spec).Clustered? {
      assert slots[2] == Slot(StatefulSet, Router) && slots[3] == Slot(StatefulSet, Worker);
    } else {
      assert slots[2] == Slot(Deployment, CubeStore);
    }
  }

  // ---- The addresses of the workers ----

  /** What the list of addresses tells whoever splits it: one address for each worker, in order. */
  lemma AddressesInWords(name: string, count: nat)
    requires count >= 1 && ',' !in name
    ensures var addresses := Text.Split(WorkerAddresses(name, count), ',');
            && |addresses| == count
            && forall i | 0 <= i < count ::
                 addresses[i]
                 == name + "-cubestore-worker-" + Text.Decimal(i) + "." + name + "-cubestore-worker:9001"
  {
    WorkerAddressesRoundTrip(name, count);
    forall i: nat | i < count
      ensures WorkerAddress(name, i)
              == name + "-cubestore-worker-" + Text.Decimal(i) + "." + name + "-cubestore-worker:9001"
    {
      Agreement.AddressAgrees(name, i);
    }
  }

  function WorkersOf(spec: Spec): int {
    match spec.cubeStore.workers
    case Some(n) => n
    case None => 2
  }

  /** Router and workers are given the addresses of as many workers as the spec asks for, once. */
  lemma GoListsWorkers(c: Cluster, parse: QuantityParser, component: Component)
    requires Buildable(c.spec, parse) && c.spec.cubeStore.mode == Some("clustered") && component in {Router, Worker}
    ensures WorkersOf(c.spec) >= 0
    ensures var o := ObjectFor(c, parse, Slot(StatefulSet, component));
            && o.body.WorkloadBody? && o.body.container.probes.TcpProbes? && DistinctNames(o.body.container.env)
            && Sets(o.body.container.env, "CUBESTORE_WORKERS", WorkerAddresses(c.name, WorkersOf(c.spec)))
  {
    assert WorkerCount(c.spec) == WorkersOf(c.spec);
    StoreEnvironmentHasNoDuplicates(c);
    var storage := StorageEnvironment(c.spec.cubeStore.storage);
    var value := WorkerAddresses(c.name, WorkerCount(c.spec));
    var role := if component.Router? then RouterEnvironment(c) else WorkerEnvironment(c);
    LastOfRole(c);
    var o := ObjectFor(c, parse, Slot(StatefulSet, component));
    assert o.body.container.env == storage + role;
    assert (storage + role)[|storage| + |role| - 1] == Literal("CUBESTORE_WORKERS", value);
  }

  lemma LastOfRole(c: Cluster)
    requires WorkerCount(c.spec) >= 0
    ensures var router, worker := RouterEnvironment(c), WorkerEnvironment(c);
            && |router| > 0 && |worker| > 0
            && router[|router| - 1] == worker[|worker| - 1]
            && router[|router| - 1] == Literal("CUBESTORE_WORKERS", WorkerAddresses(c.name, WorkerCount(c.spec)))
  {}

  /** The environment of the container that a Kopf workload runs. */
  function EnvironmentOf(d: Desired): seq<Json> {
    var containers := At(d.spec, ["template", "spec", "containers"]);
    if containers.Some? && containers.value.Arr? && |containers.value.items| == 1 then
      var env := Member(containers.value.items[0], "env");
      if env.Arr? then env.items else []
    else []
  }

  lemma RenderedEnvironment(body: Body)
    requires body.WorkloadBody? && !body.container.probes.NoProbes?
    ensures At(Agreement.RenderBody(body), ["template", "spec", "containers"])
            == Some(Arr([Agreement.RenderContainer(body.container)]))
  {
    var pod := Agreement.RenderPod(body.initContainers, body.container, body.volumes);
    PathToContainers(Agreement.RenderWorkload(body.replicas, body.selector, body.serviceName, pod), pod);
  }

  lemma RenderedVariable(o: Object, d: Desired, name: string, value: string)
    requires Agreement.Agree(o, d) && o.body.WorkloadBody? && !o.body.container.probes.NoProbes?
    requires Sets(o.body.container.env, name, value)
    ensures Obj(map["name" := Str(name), "value" := Str(value)]) in EnvironmentOf(d)
  {
    RenderedEnvironment(o.body);
    var env := o.body.container.env;
    var items := Agreement.Each(env, Agreement.RenderEnv);
    assert Member(Agreement.RenderContainer(o.body.container), "env") == Arr(items);
    var i :| 0 <= i < |env| && env[i] == Literal(name, value);
    assert items[i] == Agreement.RenderEnv(env[i]);
  }

  lemma PathToContainers(spec: map<string, Json>, pod: map<string, Json>)
    requires "template" in spec && spec["template"].Obj? && "spec" in spec["template"].fields
    requires spec["template"].fields["spec"] == Obj(pod) && "containers" in pod
    ensures At(Obj(spec), ["template", "spec", "containers"]) == Some(pod["containers"])
  {
    var path := ["template", "spec", "containers"];
    assert path[1..] == ["spec", "containers"] && path[1..][1..] == ["containers"] && path[1..][1..][1..] == [];
    assert At(Obj(spec), path) == At(spec["template"], path[1..]);
    assert At(spec["template"], path[1..]) == At(Obj(pod), path[1..][1..]);
    assert At(Obj(pod), path[1..][1..]) == At(pod["containers"], []);
  }

  /** So are they by the Kopf controller. */
  lemma KopfListsWorkers(c: Cluster, parse: QuantityParser, component: Component)
    requires Buildable(c.spec, parse) && c.spec.cubeStore.mode == Some("clustered") && component in {Router, Worker}
    ensures WorkersOf(c.spec) >= 0
    ensures Obj(map["name" := Str("CUBESTORE_WORKERS"),
                    "value" := Str(WorkerAddresses(c.name, WorkersOf(c.spec)))])
            in EnvironmentOf(Document(c, parse, Slot(StatefulSet, component)))
  {
    var slot := Slot(StatefulSet, component);
    var o, d := ObjectFor(c, parse, slot), Document(c, parse, slot);
    GoListsWorkers(c, parse, component);
    Agreement.BuildersAgree(c, parse, slot);
    RenderedVariable(o, d, "CUBESTORE_WORKERS", WorkerAddresses(c.name, WorkersOf(c.spec)));
  }

  // ---- What is applied and deleted ----

  /** The objects that Go applies, in order. */
  lemma ObjectsInOrder(c: Cluster, parse: QuantityParser)
    requires Buildable(c.spec, parse)
    ensures Objects(c, parse) ==
            [ApiService(c), CubeDeployment(c, Api, c.spec.api, 2),
             CubeDeployment(c, RefreshWorker, c.spec.refreshWorker, 1), ApiBudget(c), StorePolicy(c)]
            + if c.spec.cubeStore.mode == Some("clustered")
              then [StoreService(c, Router, false, [Port("http", 3030, 0), Port("meta", 9999, 0)]),
                    StoreService(c, Worker, true, [Port("worker", 9001, 0)]),
                    ObjectFor(c, parse, Slot(StatefulSet, Router)), ObjectFor(c, parse, Slot(StatefulSet, Worker))]
              else [StoreService(c, CubeStore, false, [Port("http", 3030, 0)]), SingleStoreDeployment(c, parse)]
  {
    FirstFive(c, parse);
    var objects := Objects(c, parse);
    if StoreMode(c.spec).Clustered? { LastFour(c, parse); } else { LastTwo(c, parse); }
    assert objects == objects[..5] + objects[5..];
  }

  lemma FirstFive(c: Cluster, parse: QuantityParser)
    requires Buildable(c.spec, parse)
    ensures |Objects(c, parse)| > 5
    ensures Objects(c, parse)[..5] ==
            [ApiService(c), CubeDeployment(c, Api, c.spec.api, 2),
             CubeDeployment(c, RefreshWorker, c.spec.refreshWorker, 1), ApiBudget(c), StorePolicy(c)]
  {}

  lemma LastFour(c: Cluster, parse: QuantityParser)
    requires Buildable(c.spec, parse) && StoreMode(c.spec).Clustered?
    ensures |Objects(c, parse)| == 9
    ensures Objects(c, parse)[5..] ==
            [StoreService(c, Router, false, [Port("http", 3030, 0), Port("meta", 9999, 0)]),
             StoreService(c, Worker, true, [Port("worker", 9001, 0)]),
             ObjectFor(c, parse, Slot(StatefulSet, Router)), ObjectFor(c, parse, Slot(StatefulSet, Worker))]
  {}

  lemma LastTwo(c: Cluster, parse: QuantityParser)
    requires Buildable(c.spec, parse) && StoreMode(c.spec).Single?
    ensures |Objects(c, parse)| == 7
    ensures Objects(c, parse)[5..] ==
            [StoreService(c, CubeStore, false, [Port("http", 3030, 0)]), SingleStoreDeployment(c, parse)]
  {}

  /** The keys that are deleted, in order: those of the topology that the spec does not ask for. */
  lemma DeletionsInOrder(c: Cluster)
    ensures ObsoleteKeys(c) ==
            if c.spec.cubeStore.mode == Some("clustered")
            then [Key(c.namespace, Deployment, c.name + "-cubestore"),
                  Key(c.namespace, Service, c.name + "-cubestore")]
            else [Key(c.namespace, StatefulSet, c.name + "-cubestore-router"),
                  Key(c.namespace, StatefulSet, c.name + "-cubestore-worker"),
                  Key(c.namespace, Service, c.name + "-cubestore-router"),
                  Key(c.namespace, Service, c.name + "-cubestore-worker")]
  {
    NamesInWords(c.name);
  }

  /** A topology is complete when each of its objects exists. */
  lemma TopologiesInWords<O>(store: map<Key, O>, id: ClusterId)
    ensures Complete(store, id, Single) <==>
              && Key(id.namespace, Service, id.name + "-cubestore") in store
              && Key(id.namespace, Deployment, id.name + "-cubestore") in store
    ensures Complete(store, id, Clustered) <==>
              && Key(id.namespace, Service, id.name + "-cubestore-router") in store
              && Key(id.namespace, Service, id.name + "-cubestore-worker") in store
              && Key(id.namespace, StatefulSet, id.name + "-cubestore-router") in store
              && Key(id.namespace, StatefulSet, id.name + "-cubestore-worker") in store
    ensures HasTopology(store, id) <==> Complete(store, id, Single) || Complete(store, id, Clustered)
  {
    NamesInWords(id.name);
    TopologyKeysInWords(id);
    assert Complete(store, id, Single) || Complete(store, id, Clustered) ==> HasTopology(store, id);
    if HasTopology(store, id) { var mode :| Complete(store, id, mode); }
  }

  lemma TopologyKeysInWords(id: ClusterId)
    ensures TopologyKeys(id, Single) == {KeyAt(id, Slot(Service, CubeStore)), KeyAt(id, Slot(Deployment, CubeStore))}
    ensures TopologyKeys(id, Clustered) ==
            {KeyAt(id, Slot(Service, Router)), KeyAt(id, Slot(Service, Worker)),
             KeyAt(id, Slot(StatefulSet, Router)), KeyAt(id, Slot(StatefulSet, Worker))}
  {}

  // ---- Ownership ----

  /** The reference that Go's SetControllerReference adds. */
  function ControllerReference(name: string, uid: string): Json {
    Obj(map["apiVersion" := Str("platform.cube.dev/v1alpha1"), "kind" := Str("CubeCluster"), "name" := Str(name),
            "uid" := Str(uid), "controller" := Bool(true), "blockOwnerDeletion" := Bool(true)])
  }

  /** Every applied object is owned by the cluster and by nothing else, under either controller; nothing else
      of its metadata changes. */
  lemma OwnersAgree(c: Cluster, parse: QuantityParser, slot: Slot)
    requires Buildable(c.spec, parse) && slot in PutSlots(StoreMode(c.spec))
    ensures var built, document := ObjectFor(c, parse, slot), Document(c, parse, slot);
            && OwnedObject(built, c).owner == Some(c.uid)
            && Owned(document, c).metadata
               == document.metadata["ownerReferences" := Arr([ControllerReference(c.name, c.uid)])]
  {
    OwnedInWords(Document(c, parse, slot), c);
  }

  lemma OwnedInWords(document: Desired, c: Cluster)
    ensures Owned(document, c).metadata
            == document.metadata["ownerReferences" := Arr([ControllerReference(c.name, c.uid)])]
  {}

  /** What a document is created as, and what it is created by. */
  lemma CreationInWords(d: Desired)
    ensures At(Creation(d), ["kind"]) == Some(Str(match d.kind
              case Service => "Service" case Deployment => "Deployment" case StatefulSet => "StatefulSet"
              case PodDisruptionBudget => "PodDisruptionBudget" case NetworkPolicy => "NetworkPolicy"))
    ensures At(Creation(d), ["apiVersion"]) == Some(Str(match d.kind
              case Service => "v1" case Deployment => "apps/v1" case StatefulSet => "apps/v1"
              case PodDisruptionBudget => "policy/v1" case NetworkPolicy => "networking.k8s.io/v1"))
    ensures At(Creation(d), ["metadata"]) == Some(Obj(d.metadata)) && At(Creation(d), ["spec"]) == Some(d.spec)
    ensures At(Amendment(d), ["metadata"]) == Some(Obj(d.metadata)) && At(Amendment(d), ["spec"]) == Some(d.spec)
    ensures Creation(d).fields.Keys == {"apiVersion", "kind", "metadata", "spec"}
    ensures Amendment(d).fields.Keys == {"metadata", "spec"}
  {
    forall j: Json, k: string | j.Obj? && k in j.fields ensures At(j, [k]) == Some(j.fields[k]) {
      assert [k][1..] == [];
    }
  }
}
