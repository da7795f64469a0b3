/** The names under which a cluster's objects are stored, and the addresses of its Cube Store workers. */
module Names {
  import opened Text

  datatype Kind = Service | Deployment | StatefulSet | PodDisruptionBudget | NetworkPolicy

  datatype Key = Key(namespace: string, kind: Kind, name: string)

  datatype Component = Api | RefreshWorker | CubeStore | Router | Worker

  function Suffix(component: Component): string {
    match component
    case Api => "api"
    case RefreshWorker => "refresh-worker"
    case CubeStore => "cubestore"
    case Router => "cubestore-router"
    case Worker => "cubestore-worker"
  }

  function ObjectName(cluster: string, component: Component): string {
    cluster + "-" + Suffix(component)
  }

  lemma NameInWords(cluster: string, component: Component, tail: string)
    requires "-" + Suffix(component) == tail
    ensures ObjectName(cluster, component) == cluster + tail
  {
    Associative(cluster, "-", Suffix(component));
  }

  /** The names as the controllers spell them. */
  lemma NamesInWords(cluster: string)
    ensures ObjectName(cluster, Api) == cluster + "-api"
    ensures ObjectName(cluster, RefreshWorker) == cluster + "-refresh-worker"
    ensures ObjectName(cluster, CubeStore) == cluster + "-cubestore"
    ensures ObjectName(cluster, Router) == cluster + "-cubestore-router"
    ensures ObjectName(cluster, Worker) == cluster + "-cubestore-worker"
  {
    NameInWords(cluster, Api, "-api");
    NameInWords(cluster, RefreshWorker, "-refresh-worker");
    NameInWords(cluster, CubeStore, "-cubestore");
    NameInWords(cluster, Router, "-cubestore-router");
    NameInWords(cluster, Worker, "-cubestore-worker");
  }

  /** Letters that tell the suffixes apart, counted from the end. */
  function Letter(component: Component, fromEnd: nat): char
    requires fromEnd in {1, 3, 8}
  {
    match component
    case Api => 'i'
    case CubeStore => 'e'
    case Router => if fromEnd == 1 then 'r' else 't'
    case Worker => if fromEnd == 1 then 'r' else if fromEnd == 3 then 'k' else 'e'
    case RefreshWorker => if fromEnd == 1 then 'r' else if fromEnd == 3 then 'k' else 'h'
  }

  lemma SuffixLetters(component: Component)
    ensures var s := Suffix(component);
            && |s| >= 3 && s[|s| - 1] == Letter(component, 1)
            && (component !in {Api, CubeStore} ==> |s| >= 8 && s[|s| - 3] == Letter(component, 3))
            && (component in {RefreshWorker, Worker} ==> s[|s| - 8] == Letter(component, 8))
  {}

  /** No "-component" suffix ends another one, so an object name tells its cluster and component,
      whatever string the cluster name is. */
  lemma ObjectNameInjective(a: string, ca: Component, b: string, cb: Component)
    requires ObjectName(a, ca) == ObjectName(b, cb)
    ensures a == b && ca == cb
  {
    SameNameSameComponent(a + "-", ca, b + "-", cb);
    SameTailSameHead(a + "-", b + "-", Suffix(ca));
    SameTailSameHead(a, b, "-");
  }

  lemma SameNameSameComponent(a: string, ca: Component, b: string, cb: Component)
    requires a + Suffix(ca) == b + Suffix(cb)
    ensures ca == cb
  {
    SuffixLetters(ca);
    SuffixLetters(cb);
    TailsAgree(a, Suffix(ca), b, Suffix(cb), 1);
    if ca !in {Api, CubeStore} && cb !in {Api, CubeStore} {
      TailsAgree(a, Suffix(ca), b, Suffix(cb), 3);
      TailsAgree(a, Suffix(ca), b, Suffix(cb), 8);
    }
  }

  /** The pod that a StatefulSet creates for an ordinal. */
  function WorkerPod(cluster: string, ordinal: nat): string {
    ObjectName(cluster, Worker) + "-" + Decimal(ordinal)
  }

  function WorkerAddress(cluster: string, ordinal: nat): string {
    WorkerPod(cluster, ordinal) + "." + ObjectName(cluster, Worker) + ":9001"
  }

  function WorkerAddressList(cluster: string, count: nat): (list: seq<string>)
    ensures |list| == count
    ensures forall i | 0 <= i < count :: list[i] == WorkerAddress(cluster, i)
  {
    seq(count, i requires 0 <= i => WorkerAddress(cluster, i))
  }

  /** The value of CUBESTORE_WORKERS. */
  function WorkerAddresses(cluster: string, count: nat): string {
    Join(WorkerAddressList(cluster, count), ",")
  }

  /** The loop that fills a slice of the given length and joins it. */
  method FillWorkerAddresses(cluster: string, count: nat) returns (joined: string)
    ensures joined == WorkerAddresses(cluster, count)
  {
    var addresses := new string[count];
    for i := 0 to count
      invariant forall j | 0 <= j < i :: addresses[j] == WorkerAddress(cluster, j)
    {
      addresses[i] := ObjectName(cluster, Worker) + "-" + Decimal(i) + "." + ObjectName(cluster, Worker) + ":9001";
    }
    assert addresses[..] == WorkerAddressList(cluster, count);
    joined := Join(addresses[..], ",");
  }

  lemma AddressOfPod(cluster: string, ordinal: nat)
    ensures WorkerAddress(cluster, ordinal)
            == WorkerPod(cluster, ordinal) + ("." + ObjectName(cluster, Worker) + ":9001")
  {
    var pod, host := WorkerPod(cluster, ordinal), ObjectName(cluster, Worker);
    Associative(pod, ".", host);
    Associative(pod, "." + host, ":9001");
  }

  lemma WorkerAddressInjective(cluster: string, i: nat, j: nat)
    requires WorkerAddress(cluster, i) == WorkerAddress(cluster, j)
    ensures i == j
  {
    AddressOfPod(cluster, i);
    AddressOfPod(cluster, j);
    SameTailSameHead(WorkerPod(cluster, i), WorkerPod(cluster, j), "." + ObjectName(cluster, Worker) + ":9001");
    SameHeadSameTail(ObjectName(cluster, Worker) + "-", Decimal(i), Decimal(j));
    DecimalDenotes(i);
    DecimalDenotes(j);
  }

  lemma WorkerAddressCommaFree(cluster: string, ordinal: nat)
    ensures ',' in WorkerAddress(cluster, ordinal) <==> ',' in cluster
  {
    assert ',' !in Decimal(ordinal);
    if ',' !in cluster {
      assert ',' !in ObjectName(cluster, Worker);
      assert ',' !in WorkerPod(cluster, ordinal);
    } else {
      assert ',' in ObjectName(cluster, Worker);
      assert ',' in WorkerPod(cluster, ordinal);
    }
  }

  /** Splitting CUBESTORE_WORKERS on commas returns the count addresses, pairwise distinct, exactly
      when there is at least one worker and the cluster name is free of commas. */
  lemma WorkerAddressesRoundTrip(cluster: string, count: nat)
    ensures Split(WorkerAddresses(cluster, count), ',') == WorkerAddressList(cluster, count)
            <==> count >= 1 && ',' !in cluster
    ensures var list := WorkerAddressList(cluster, count);
            forall i, j | 0 <= i < j < count :: list[i] != list[j]
  {
    var list := WorkerAddressList(cluster, count);
    SplitUndoesJoin(list, ',');
    forall i | 0 <= i < count ensures ',' in list[i] <==> ',' in cluster {
      WorkerAddressCommaFree(cluster, i);
    }
    if count >= 1 { assert ',' in list[0] <==> ',' in cluster; }
    forall i, j | 0 <= i < j < count ensures list[i] != list[j] {
      if list[i] == list[j] { WorkerAddressInjective(cluster, i, j); }
    }
  }

  /** The value of CUBESTORE_SERVER_NAME in the worker pods. */
  function WorkerServerName(cluster: string): string {
    "$(POD_NAME)." + ObjectName(cluster, Worker) + ":9001"
  }

  /** What worker i calls itself is the i-th address of the list every pod is given. */
  lemma WorkerKnowsItsAddress(cluster: string, count: nat, ordinal: nat)
    requires '$' !in cluster && ordinal < count
    ensures Expand(WorkerServerName(cluster), map["POD_NAME" := WorkerPod(cluster, ordinal)])
            == WorkerAddressList(cluster, count)[ordinal]
  {
    var pod, host := WorkerPod(cluster, ordinal), ObjectName(cluster, Worker);
    var environment := map["POD_NAME" := pod];
    var rest := "." + host + ":9001";
    assert WorkerServerName(cluster) == "$(" + "POD_NAME" + ")" + rest;
    ReferenceExpands("POD_NAME", rest, environment);
    assert '$' !in host;
    PlainTextExpandsToItself(rest, environment);
    AddressOfPod(cluster, ordinal);
  }
}
