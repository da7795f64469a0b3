/** What a sequence of Kopf applies makes of an object, and how Kopf's documents relate to Go's objects. */
module KopfLaws {
  import opened Options
  import opened MergePatch
  import opened Names
  import opened ClusterSpec
  import opened GoObjects
  import opened KopfObjects
  import opened Plan

  // ---- Create and merge are one operation ----

  /** No member reached through objects is null; lists are not looked into. */
  predicate NullFree(j: Json) {
    !j.Null? && (j.Obj? ==> forall k | k in j.fields :: NullFree(j.fields[k]))
  }

  lemma {:induction false} NullFreeStaysItself(j: Json)
    requires NullFree(j)
    ensures Patched(Null, j) == j
    decreases j
  {
    if j.Obj? {
      forall k | k in j.fields ensures Patched(Null, j.fields[k]) == j.fields[k] {
        NullFreeStaysItself(j.fields[k]);
      }
      assert Patched(Null, j).fields == j.fields;
    }
  }

  function Base(stored: Option<Json>, kind: Kind): Json {
    if stored.None? then Obj(Identity(kind)) else stored.value
  }

  /** Creating an object is merging into a document that holds nothing but its identity. */
  lemma CreateIsMerge(stored: Option<Json>, d: Desired)
    requires NullFree(Amendment(d))
    ensures CreateOrMerge(stored, d) == Patched(Base(stored, d.kind), Amendment(d))
  {
    if stored.None? {
      var merged := Patched(Obj(Identity(d.kind)), Amendment(d));
      assert NullFree(Amendment(d).fields["metadata"]) && NullFree(Amendment(d).fields["spec"]);
      NullFreeStaysItself(Obj(d.metadata));
      NullFreeStaysItself(d.spec);
      assert Member(Obj(Identity(d.kind)), "metadata") == Null && Member(Obj(Identity(d.kind)), "spec") == Null;
      assert merged.fields == Creation(d).fields;
    }
  }

  /** Applying a document to what applying it has made changes nothing. */
  lemma ApplyingTwiceIsApplyingOnce(stored: Option<Json>, d: Desired)
    requires NullFree(Amendment(d))
    ensures CreateOrMerge(Some(CreateOrMerge(stored, d)), d) == CreateOrMerge(stored, d)
  {
    CreateIsMerge(stored, d);
    Idempotent(Base(stored, d.kind), Amendment(d));
  }

  /** The later apply leaves nothing of the earlier one, on every stored object, exactly when its
      document covers the earlier document. */
  lemma LaterApplyAbsorbsEarlier(earlier: Desired, later: Desired)
    requires earlier.kind == later.kind && NullFree(Amendment(earlier)) && NullFree(Amendment(later))
    ensures (forall stored ::
               CreateOrMerge(Some(CreateOrMerge(stored, earlier)), later) == CreateOrMerge(stored, later))
            <==> Covers(Amendment(later), Amendment(earlier))
  {
    var e, l := Amendment(earlier), Amendment(later);
    if Covers(l, e) {
      forall stored ensures CreateOrMerge(Some(CreateOrMerge(stored, earlier)), later) == CreateOrMerge(stored, later) {
        CreateIsMerge(stored, earlier);
        CreateIsMerge(stored, later);
        CoveredIsAbsorbed(Base(stored, later.kind), e, l);
      }
    } else {
      var target := UncoveredLeavesTrace(e, l);
      assert CreateOrMerge(Some(CreateOrMerge(Some(target), earlier)), later) != CreateOrMerge(Some(target), later);
    }
  }

  // ---- The shape of the documents ----

  lemma TextsShape(m: map<string, string>, n: map<string, string>)
    ensures NullFree(Texts(m))
    ensures Covers(Texts(n), Texts(m)) <==> m.Keys <= n.Keys
  {
    assert Texts(m).fields.Keys == m.Keys && Texts(n).fields.Keys == n.Keys;
  }

  /** Adding a member to both documents. */
  lemma ExtendedShape(l: map<string, Json>, e: map<string, Json>, k: string, lv: Json, ev: Json)
    requires k !in l && k !in e && NullFree(Obj(l)) && NullFree(lv) && Covers(Obj(l), Obj(e))
    ensures NullFree(Obj(l[k := lv]))
    ensures Covers(Obj(l[k := lv]), Obj(e[k := ev])) <==> Covers(lv, ev)
  {
    var lx, ex := Obj(l[k := lv]), Obj(e[k := ev]);
    assert forall n | n in e :: n in Obj(l).fields && Covers(Obj(l).fields[n], Obj(e).fields[n]);
    assert forall n | n in l :: NullFree(Obj(l).fields[n]);
    assert lx.fields[k] == lv && ex.fields[k] == ev;
    assert forall n | n in e :: lx.fields[n] == l[n] && ex.fields[n] == e[n];
  }

  lemma PairShape(j: string, k: string, lj: Json, lk: Json, ej: Json, ek: Json)
    requires j != k && NullFree(lj) && NullFree(lk) && Covers(lj, ej) && Covers(lk, ek)
    ensures NullFree(Obj(map[j := lj, k := lk])) && Covers(Obj(map[j := lj, k := lk]), Obj(map[j := ej, k := ek]))
  {
    ExtendedShape(map[], map[], j, lj, ej);
    ExtendedShape(map[j := lj], map[j := ej], k, lk, ek);
  }

  lemma MetadataShape(c: Cluster, e: Cluster, component: Component)
    requires c.namespace == e.namespace && c.name == e.name
    ensures NullFree(Obj(Owned(Desired(Service, Metadata(c, component), Null), c).metadata))
    ensures NullFree(Obj(Owned(Desired(Service, LabelledMetadata(c, component), Null), c).metadata))
    ensures Covers(Obj(Owned(Desired(Service, Metadata(c, component), Null), c).metadata),
                   Obj(Owned(Desired(Service, Metadata(e, component), Null), e).metadata))
    ensures Covers(Obj(Owned(Desired(Service, LabelledMetadata(c, component), Null), c).metadata),
                   Obj(Owned(Desired(Service, LabelledMetadata(e, component), Null), e).metadata))
  {
    var plain, labels := Metadata(c, component), Texts(DocumentLabels(c.name, component));
    TextsShape(DocumentLabels(c.name, component), DocumentLabels(c.name, component));
    PairShape("name", "namespace", plain["name"], plain["namespace"], plain["name"], plain["namespace"]);
    ExtendedShape(plain, plain, "labels", labels, labels);
    ExtendedShape(plain, plain, "ownerReferences", OwnerReferences(c), OwnerReferences(e));
    var labelled := plain["labels" := labels];
    ExtendedShape(labelled, labelled, "ownerReferences", OwnerReferences(c), OwnerReferences(e));
  }

  lemma WorkloadShape(c: Cluster, e: Cluster, component: Component, m: int, n: int,
                      cpod: map<string, Json>, epod: map<string, Json>)
    requires c.name == e.name && NullFree(Obj(cpod)) && Covers(Obj(cpod), Obj(epod))
    ensures NullFree(Obj(WorkloadDocument(c, component, m, cpod)))
    ensures Covers(Obj(WorkloadDocument(c, component, m, cpod)), Obj(WorkloadDocument(e, component, n, epod)))
  {
    var labels := Texts(DocumentLabels(c.name, component));
    TextsShape(DocumentLabels(c.name, component), DocumentLabels(c.name, component));
    var selector, metadata := Obj(map["matchLabels" := labels]), Obj(map["labels" := labels]);
    ExtendedShape(map[], map[], "matchLabels", labels, labels);
    ExtendedShape(map[], map[], "labels", labels, labels);
    PairShape("metadata", "spec", metadata, Obj(cpod), metadata, Obj(epod));
    PairShape("replicas", "selector", Number(m), selector, Number(n), selector);
    ExtendedShape(map["replicas" := Number(m), "selector" := selector],
                  map["replicas" := Number(n), "selector" := selector], "template",
                  Obj(map["metadata" := metadata, "spec" := Obj(cpod)]),
                  Obj(map["metadata" := metadata, "spec" := Obj(epod)]));
  }

  /** later may follow earlier on the same object: both are free of nulls, and covering is decided
      by the annotations when the documents carry any. */
  ghost predicate Fits(later: Desired, earlier: Desired, absorbs: bool) {
    && NullFree(Amendment(later))
    && (Covers(Amendment(later), Amendment(earlier)) <==> absorbs)
  }

  lemma FitsByParts(later: Desired, earlier: Desired, absorbs: bool)
    requires NullFree(Obj(later.metadata)) && NullFree(later.spec)
    requires Covers(Obj(later.metadata), Obj(earlier.metadata)) <==> absorbs
    requires Covers(later.spec, earlier.spec)
    ensures Fits(later, earlier, absorbs)
  {
    var l, e := Amendment(later), Amendment(earlier);
    assert l.fields["metadata"] == Obj(later.metadata) && l.fields["spec"] == later.spec;
    assert e.fields["metadata"] == Obj(earlier.metadata) && e.fields["spec"] == earlier.spec;
  }

  function PlainMetadata(c: Cluster): map<string, Json> {
    LabelledMetadata(c, Api)["ownerReferences" := OwnerReferences(c)]
  }

  lemma AnnotationsComeOnTop(c: Cluster)
    ensures "annotations" !in PlainMetadata(c)
    ensures Owned(ApiServiceDocument(c), c).metadata
            == PlainMetadata(c)["annotations" := Texts(c.spec.service.annotations)]
  {}

  lemma AnnotatedMetadataShape(c: Cluster, e: Cluster)
    requires c.namespace == e.namespace && c.name == e.name
    ensures NullFree(Obj(Owned(ApiServiceDocument(c), c).metadata))
    ensures Covers(Obj(Owned(ApiServiceDocument(c), c).metadata), Obj(Owned(ApiServiceDocument(e), e).metadata))
            <==> e.spec.service.annotations.Keys <= c.spec.service.annotations.Keys
  {
    MetadataShape(c, e, Api);
    AnnotationsComeOnTop(c);
    AnnotationsComeOnTop(e);
    TextsShape(e.spec.service.annotations, c.spec.service.annotations);
    TextsShape(c.spec.service.annotations, c.spec.service.annotations);
    ExtendedShape(PlainMetadata(c), PlainMetadata(e), "annotations",
                  Texts(c.spec.service.annotations), Texts(e.spec.service.annotations));
  }

  lemma ApiServiceFits(c: Cluster, e: Cluster)
    requires c.namespace == e.namespace && c.name == e.name
    ensures Fits(Owned(ApiServiceDocument(c), c), Owned(ApiServiceDocument(e), e),
                 e.spec.service.annotations.Keys <= c.spec.service.annotations.Keys)
  {
    AnnotatedMetadataShape(c, e);
    ApiServiceSpecShape(c, e);
    FitsByParts(Owned(ApiServiceDocument(c), c), Owned(ApiServiceDocument(e), e),
                e.spec.service.annotations.Keys <= c.spec.service.annotations.Keys);
  }

  lemma ApiServiceSpecShape(c: Cluster, e: Cluster)
    requires c.name == e.name
    ensures NullFree(ApiServiceSpec(c)) && Covers(ApiServiceSpec(c), ApiServiceSpec(e))
  {
    TextsShape(DocumentLabels(c.name, Api), DocumentLabels(c.name, Api));
  }

  lemma PodShape(lc: seq<Json>, lv: seq<Json>, ec: seq<Json>, ev: seq<Json>)
    ensures NullFree(Obj(Pod(lc, lv))) && Covers(Obj(Pod(lc, lv)), Obj(Pod(ec, ev)))
  {
    var context := PodSecurityContext();
    assert NullFree(context.fields["seccompProfile"]);
    CoversItself(context);
  }

  lemma DeploymentFits(c: Cluster, e: Cluster, component: Component, cw: Workload, ew: Workload)
    requires c.namespace == e.namespace && c.name == e.name
    ensures Fits(Owned(DeploymentDocument(c, component, cw), c), Owned(DeploymentDocument(e, component, ew), e), true)
  {
    MetadataShape(c, e, component);
    var cc, ec := [CubeContainerDocument(c, component, cw)], [CubeContainerDocument(e, component, ew)];
    var cp, ep := Pod(cc, ModelVolumes(c)), Pod(ec, ModelVolumes(e));
    PodShape(cc, ModelVolumes(c), ec, ModelVolumes(e));
    var ci, ei := Arr([ModelLoaderDocument(c)]), Arr([ModelLoaderDocument(e)]);
    ExtendedShape(cp, ep, "initContainers", ci, ei);
    WorkloadShape(c, e, component, Replicas(cw.replicas, if component.Api? then 2 else 1),
                  Replicas(ew.replicas, if component.Api? then 2 else 1),
                  cp["initContainers" := ci], ep["initContainers" := ei]);
    FitsByParts(Owned(DeploymentDocument(c, component, cw), c), Owned(DeploymentDocument(e, component, ew), e), true);
  }

  lemma StoreWorkloadFits(c: Cluster, e: Cluster, parse: QuantityParser, component: Component, m: int, n: int)
    requires c.namespace == e.namespace && c.name == e.name && Buildable(c.spec, parse) && Buildable(e.spec, parse)
    requires (WorkerCount(c.spec) >= 0 && WorkerCount(e.spec) >= 0) || component.CubeStore?
    ensures Fits(Owned(StoreWorkloadDocument(c, parse, component, m), c),
                 Owned(StoreWorkloadDocument(e, parse, component, n), e), true)
  {
    MetadataShape(c, e, component);
    var cc := [StoreContainerDocument(c, Role(component), RoleEnv(c, component))];
    var ec := [StoreContainerDocument(e, Role(component), RoleEnv(e, component))];
    var cv, ev := StoreVolumeDocuments(c, parse), StoreVolumeDocuments(e, parse);
    PodShape(cc, cv, ec, ev);
    WorkloadShape(c, e, component, m, n, Pod(cc, cv), Pod(ec, ev));
    StatefulShape(c, e, component, WorkloadDocument(c, component, m, Pod(cc, cv)),
                  WorkloadDocument(e, component, n, Pod(ec, ev)));
    FitsByParts(Owned(StoreWorkloadDocument(c, parse, component, m), c),
                Owned(StoreWorkloadDocument(e, parse, component, n), e), true);
  }

  lemma StatefulShape(c: Cluster, e: Cluster, component: Component, l: map<string, Json>, r: map<string, Json>)
    requires c.name == e.name && NullFree(Obj(l)) && Covers(Obj(l), Obj(r))
    ensures NullFree(Obj(l + StatefulFields(c, component)))
    ensures Covers(Obj(l + StatefulFields(c, component)), Obj(r + StatefulFields(e, component)))
  {
    var lx, rx := Obj(l + StatefulFields(c, component)), Obj(r + StatefulFields(e, component));
    assert forall n | n in r :: n in Obj(l).fields && Covers(Obj(l).fields[n], Obj(r).fields[n]);
    assert forall n | n in l :: NullFree(Obj(l).fields[n]);
  }

  lemma StoreServiceFits(c: Cluster, e: Cluster, component: Component)
    requires c.namespace == e.namespace && c.name == e.name
    ensures Fits(Owned(StoreServiceDocument(c, component), c), Owned(StoreServiceDocument(e, component), e), true)
  {
    MetadataShape(c, e, component);
    TextsShape(DocumentLabels(c.name, component), DocumentLabels(c.name, component));
    FitsByParts(Owned(StoreServiceDocument(c, component), c), Owned(StoreServiceDocument(e, component), e), true);
  }

  lemma BudgetFits(c: Cluster, e: Cluster)
    requires c.namespace == e.namespace && c.name == e.name
    ensures Fits(Owned(BudgetDocument(c), c), Owned(BudgetDocument(e), e), true)
  {
    MetadataShape(c, e, Api);
    TextsShape(DocumentLabels(c.name, Api), DocumentLabels(c.name, Api));
    var selector := Obj(map["matchLabels" := Texts(DocumentLabels(c.name, Api))]);
    assert NullFree(selector) && Covers(selector, selector);
    FitsByParts(Owned(BudgetDocument(c), c), Owned(BudgetDocument(e), e), true);
  }

  lemma PolicyFits(c: Cluster, e: Cluster)
    requires c.namespace == e.namespace && c.name == e.name
    ensures Fits(Owned(PolicyDocument(c), c), Owned(PolicyDocument(e), e), true)
  {
    MetadataShape(c, e, CubeStore);
    var pods := map["app.kubernetes.io/instance" := c.name, "platform.cube.dev/store" := "true"];
    TextsShape(pods, pods);
    var selector := Obj(map["matchLabels" := Texts(pods)]);
    assert NullFree(selector) && Covers(selector, selector);
    FitsByParts(Owned(PolicyDocument(c), c), Owned(PolicyDocument(e), e), true);
  }

  ghost predicate SlotFits(e: Cluster, c: Cluster, parse: QuantityParser, slot: Slot)
    requires Buildable(e.spec, parse) && Buildable(c.spec, parse)
    requires slot.component in {Router, Worker} ==> StoreMode(e.spec).Clustered? && StoreMode(c.spec).Clustered?
  {
    && Fits(Owned(Document(c, parse, slot), c), Owned(Document(e, parse, slot), e),
            slot == Slot(Service, Api) ==> e.spec.service.annotations.Keys <= c.spec.service.annotations.Keys)
    && Document(c, parse, slot).kind == Document(e, parse, slot).kind
  }

  lemma FrontFits(e: Cluster, c: Cluster, parse: QuantityParser, slot: Slot)
    requires e.namespace == c.namespace && e.name == c.name
    requires Buildable(e.spec, parse) && Buildable(c.spec, parse)
    requires slot.component in {Api, RefreshWorker}
    ensures SlotFits(e, c, parse, slot)
  {
    if slot.component.RefreshWorker? {
      DeploymentFits(c, e, RefreshWorker, c.spec.refreshWorker, e.spec.refreshWorker);
    }
    else if slot.kind.Service? { ApiServiceFits(c, e); }
    else if slot.kind.PodDisruptionBudget? { BudgetFits(c, e); }
    else { DeploymentFits(c, e, Api, c.spec.api, e.spec.api); }
  }

  lemma SingleStoreFits(e: Cluster, c: Cluster, parse: QuantityParser, slot: Slot)
    requires e.namespace == c.namespace && e.name == c.name
    requires Buildable(e.spec, parse) && Buildable(c.spec, parse)
    requires slot.component.CubeStore?
    ensures SlotFits(e, c, parse, slot)
  {
    if slot.kind.Service? { StoreServiceFits(c, e, CubeStore); }
    else if slot.kind.NetworkPolicy? { PolicyFits(c, e); }
    else { StoreWorkloadFits(c, e, parse, CubeStore, 1, 1); }
  }

  lemma ClusteredStoreFits(e: Cluster, c: Cluster, parse: QuantityParser, slot: Slot)
    requires e.namespace == c.namespace && e.name == c.name
    requires Buildable(e.spec, parse) && Buildable(c.spec, parse)
    requires slot.component in {Router, Worker} && StoreMode(e.spec).Clustered? && StoreMode(c.spec).Clustered?
    ensures SlotFits(e, c, parse, slot)
  {
    if slot.kind.Service? { StoreServiceFits(c, e, slot.component); }
    else if slot.component.Router? { StoreWorkloadFits(c, e, parse, Router, 1, 1); }
    else { StoreWorkloadFits(c, e, parse, Worker, WorkerCount(c.spec), WorkerCount(e.spec)); }
  }

  lemma DocumentFits(e: Cluster, c: Cluster, parse: QuantityParser, slot: Slot)
    requires e.namespace == c.namespace && e.name == c.name
    requires Buildable(e.spec, parse) && Buildable(c.spec, parse)
    requires slot.component in {Router, Worker} ==> StoreMode(e.spec).Clustered? && StoreMode(c.spec).Clustered?
    ensures SlotFits(e, c, parse, slot)
  {
    match slot.component
    case Api => FrontFits(e, c, parse, slot);
    case RefreshWorker => FrontFits(e, c, parse, slot);
    case CubeStore => SingleStoreFits(e, c, parse, slot);
    case _ => ClusteredStoreFits(e, c, parse, slot);
  }

  /** Over any two specs of a cluster that both apply an object: the later apply absorbs the earlier
      one on every stored object, with one exception: on the API Service it does so exactly when it
      still names every annotation that the earlier one set.  Dropped annotations stay. */
  lemma OnlyDroppedAnnotationsSurvive(earlier: Cluster, later: Cluster, parse: QuantityParser, slot: Slot)
    requires earlier.namespace == later.namespace && earlier.name == later.name
    requires Buildable(earlier.spec, parse) && Buildable(later.spec, parse)
    requires slot in PutSlots(StoreMode(earlier.spec)) && slot in PutSlots(StoreMode(later.spec))
    ensures var e, l := Owned(Document(earlier, parse, slot), earlier), Owned(Document(later, parse, slot), later);
            (forall stored :: CreateOrMerge(Some(CreateOrMerge(stored, e)), l) == CreateOrMerge(stored, l))
            <==> (slot == Slot(Service, Api) ==>
                    earlier.spec.service.annotations.Keys <= later.spec.service.annotations.Keys)
  {
    var e, l := Owned(Document(earlier, parse, slot), earlier), Owned(Document(later, parse, slot), later);
    DocumentFits(earlier, later, parse, slot);
    DocumentFits(earlier, earlier, parse, slot);
    LaterApplyAbsorbsEarlier(e, l);
  }
}
