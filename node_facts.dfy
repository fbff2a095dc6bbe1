/**
 * What the node map of `buildGraph` contains: which ids are keys, which value
 * each of an object's own ids holds once the object is processed, and the
 * ids that edges point to without the builder ever inserting them.
 */
module NodeFacts {
  import opened KubeObjects
  import opened Decimal
  import opened NodeIds
  import opened GraphSpec

  // ---- which ids are keys ----

  /** The ids `buildGraph` inserts for replica `i` of `d`: the Pod, then one per container entry. */
  predicate IsReplicaKey(d: Doc, i: nat, id: string)
  {
    id == PodId(d, i) || exists c :: c in ContainersOf(d) && id == ContainerId(d, i, c)
  }

  /** The ids `buildGraph` inserts while processing `d` itself. */
  predicate IsOwnKey(d: Doc, id: string)
  {
    id == SelfId(d)
    || (IsWorkload(d)
        && ((exists i :: 0 <= i < PodCount(d) && IsReplicaKey(d, i, id))
            || (HasOverflow(d) && id == MoreId(d))))
  }

  lemma {:induction false} ContainerNodesKeys(m: map<string, Node>, d: Doc, i: nat, n: nat, id: string)
    requires n <= |ContainersOf(d)|
    ensures id in ContainerNodes(m, d, i, n) <==>
              id in m || exists c :: c in ContainersOf(d)[..n] && id == ContainerId(d, i, c)
  {
    if n > 0 {
      var cs := ContainersOf(d);
      ContainerNodesKeys(m, d, i, n - 1, id);
      assert cs[..n] == cs[..n - 1] + [cs[n - 1]];
    }
  }

  /** One of the first `n` replicas of `d` has `id` among its ids. */
  predicate ReplicaAmong(d: Doc, n: nat, id: string)
  {
    n > 0 && (ReplicaAmong(d, n - 1, id) || IsReplicaKey(d, n - 1, id))
  }

  lemma {:induction false} PodNodesReplica(m: map<string, Node>, d: Doc, n: nat, id: string)
    ensures id in PodNodes(m, d, n) <==> id in m || ReplicaAmong(d, n, id)
  {
    if n > 0 {
      var cs := ContainersOf(d);
      var withPod := PodNodes(m, d, n - 1)[PodId(d, n - 1) := PodNode(d, n - 1)];
      PodNodesReplica(m, d, n - 1, id);
      ContainerNodesKeys(withPod, d, n - 1, |cs|, id);
      assert cs[..|cs|] == cs;
    }
  }

  lemma {:induction false} ReplicaAmongIff(d: Doc, n: nat, id: string)
    ensures ReplicaAmong(d, n, id) <==> exists i :: 0 <= i < n && IsReplicaKey(d, i, id)
  {
    if n > 0 {
      ReplicaAmongIff(d, n - 1, id);
      if ReplicaAmong(d, n - 1, id) {
        var i :| 0 <= i < n - 1 && IsReplicaKey(d, i, id);
        assert 0 <= i < n && IsReplicaKey(d, i, id);
      }
      if i :| 0 <= i < n && IsReplicaKey(d, i, id) {
        if i < n - 1 {
          assert ReplicaAmong(d, n - 1, id);
        }
      }
    }
  }

  lemma PodNodesKeys(m: map<string, Node>, d: Doc, n: nat, id: string)
    ensures id in PodNodes(m, d, n) <==> id in m || exists i :: 0 <= i < n && IsReplicaKey(d, i, id)
  {
    PodNodesReplica(m, d, n, id);
    ReplicaAmongIff(d, n, id);
  }

  /** Processing `d` adds exactly its own ids to the node map and removes none. */
  lemma ResourceNodesKeys(m: map<string, Node>, d: Doc, id: string)
    ensures id in ResourceNodes(m, d) <==> id in m || IsOwnKey(d, id)
  {
    var withSelf := m[SelfId(d) := SelfNode(d)];
    PodNodesKeys(withSelf, d, PodCount(d), id);
  }

  /** Some object among the first `k` has `id` among its own ids. */
  predicate OwnedAmong(all: seq<Doc>, k: nat, id: string)
    requires k <= |all|
  {
    k > 0 && (OwnedAmong(all, k - 1, id) || IsOwnKey(all[k - 1], id))
  }

  lemma {:induction false} NodesOwned(all: seq<Doc>, k: nat, id: string)
    requires k <= |all|
    ensures id in Nodes(all, k) <==> OwnedAmong(all, k, id)
  {
    if k > 0 {
      NodesOwned(all, k - 1, id);
      ResourceNodesKeys(Nodes(all, k - 1), all[k - 1], id);
    }
  }

  lemma {:induction false} OwnedAmongIff(all: seq<Doc>, k: nat, id: string)
    requires k <= |all|
    ensures OwnedAmong(all, k, id) <==> exists j :: 0 <= j < k && IsOwnKey(all[j], id)
  {
    if k > 0 {
      OwnedAmongIff(all, k - 1, id);
      if OwnedAmong(all, k - 1, id) {
        var j :| 0 <= j < k - 1 && IsOwnKey(all[j], id);
        assert 0 <= j < k && IsOwnKey(all[j], id);
      }
      if j :| 0 <= j < k && IsOwnKey(all[j], id) {
        if j < k - 1 {
          assert OwnedAmong(all, k - 1, id);
        }
      }
    }
  }

  /** An id is a key of the node map exactly when some object processed so far inserted it. */
  lemma NodesKeys(all: seq<Doc>, k: nat, id: string)
    requires k <= |all|
    ensures id in Nodes(all, k) <==> exists j :: 0 <= j < k && IsOwnKey(all[j], id)
  {
    NodesOwned(all, k, id);
    OwnedAmongIff(all, k, id);
  }

  /** Every accepted object has its self node in the graph. */
  lemma SelfNodesPresent(all: seq<Doc>)
    ensures forall j :: 0 <= j < |all| ==> SelfId(all[j]) in Build(all).nodes
  {
    forall j | 0 <= j < |all|
      ensures SelfId(all[j]) in Build(all).nodes
    {
      NodesKeys(all, |all|, SelfId(all[j]));
    }
  }

  // ---- the replicas of one workload ----

  /** The Pod ids of the first `n` replicas of `d`. */
  function ReplicaIds(d: Doc, n: nat): set<string>
  {
    set i | 0 <= i < n :: PodId(d, i)
  }

  /** The first `n` replicas have `n` distinct Pod ids. */
  lemma {:induction false} ReplicaIdsCount(d: Doc, n: nat)
    ensures |ReplicaIds(d, n)| == n
  {
    if n > 0 {
      ReplicaIdsCount(d, n - 1);
      ReplicaIdsStep(d, n - 1);
    }
  }

  /** One more replica adds its Pod id, which none of the earlier replicas has. */
  lemma ReplicaIdsStep(d: Doc, n: nat)
    ensures ReplicaIds(d, n + 1) == ReplicaIds(d, n) + {PodId(d, n)}
    ensures PodId(d, n) !in ReplicaIds(d, n)
  {
    if PodId(d, n) in ReplicaIds(d, n) {
      var i :| 0 <= i < n && PodId(d, i) == PodId(d, n);
      PodIdInjective(d, i, n);
    }
  }

  /**
   * The own ids of a workload that start with "Pod/" are exactly the Pod ids
   * of its first PodCount replicas, so a workload contributes PodCount Pod
   * nodes of that shape (the overflow marker, also of kind Pod, is keyed
   * under the owner's id instead).
   */
  lemma OwnPodKeys(d: Doc, id: string)
    requires IsWorkload(d)
    ensures (IsOwnKey(d, id) && "Pod/" <= id) <==> id in ReplicaIds(d, PodCount(d))
    ensures |ReplicaIds(d, PodCount(d))| == PodCount(d)
  {
    ReplicaIdsCount(d, PodCount(d));
    WorkloadIdsDisjoint(d, 0, 0, Container(None));
    var k := KindText(d);
    assert SelfId(d)[0] == k[0] && MoreId(d)[0] == k[0] && k[0] != 'P';
    forall i: nat, c: Container
      ensures !("Pod/" <= ContainerId(d, i, c))
    {
      assert ContainerId(d, i, c)[0] == 'C';
    }
    if id in ReplicaIds(d, PodCount(d)) {
      var i :| 0 <= i < PodCount(d) && id == PodId(d, i);
      assert IsReplicaKey(d, i, id);
      assert "Pod/" <= PodId(d, i);
    }
  }

  /** A workload's overflow marker is one of its own ids exactly when replicas > 5. */
  lemma OverflowKey(d: Doc)
    requires IsWorkload(d)
    ensures IsOwnKey(d, MoreId(d)) <==> HasOverflow(d)
  {
    forall i: nat, c: Container
      ensures MoreId(d) != PodId(d, i) && MoreId(d) != ContainerId(d, i, c)
    {
      WorkloadIdsDisjoint(d, i, i, c);
    }
    WorkloadIdsDisjoint(d, 0, 0, Container(None));
  }

  // ---- which value each own id holds ----

  /** The container loop of a replica leaves every id outside the "Container/" scheme alone. */
  lemma {:induction false} ContainerNodesKeep(m: map<string, Node>, d: Doc, i: nat, n: nat, id: string)
    requires n <= |ContainersOf(d)|
    requires id in m && |id| > 0 && id[0] != 'C'
    ensures id in ContainerNodes(m, d, i, n) && ContainerNodes(m, d, i, n)[id] == m[id]
  {
    if n > 0 {
      ContainerNodesKeep(m, d, i, n - 1, id);
      assert ContainerId(d, i, ContainersOf(d)[n - 1])[0] == 'C';
    }
  }

  /** The replica loop leaves every id outside the "Pod/" and "Container/" schemes alone. */
  lemma {:induction false} PodNodesKeep(m: map<string, Node>, d: Doc, n: nat, id: string)
    requires id in m && |id| > 0 && id[0] != 'C' && id[0] != 'P'
    ensures id in PodNodes(m, d, n) && PodNodes(m, d, n)[id] == m[id]
  {
    if n > 0 {
      PodNodesKeep(m, d, n - 1, id);
      assert PodId(d, n - 1)[0] == 'P';
      var withPod := PodNodes(m, d, n - 1)[PodId(d, n - 1) := PodNode(d, n - 1)];
      ContainerNodesKeep(withPod, d, n - 1, |ContainersOf(d)|, id);
    }
  }

  /** After the first `n` replicas, each of their Pod ids holds that replica's Pod node. */
  lemma {:induction false} PodNodesValues(m: map<string, Node>, d: Doc, n: nat, i: nat)
    requires i < n
    ensures PodId(d, i) in PodNodes(m, d, n) && PodNodes(m, d, n)[PodId(d, i)] == PodNode(d, i)
  {
    var id := PodId(d, i);
    var withPod := PodNodes(m, d, n - 1)[PodId(d, n - 1) := PodNode(d, n - 1)];
    if i < n - 1 {
      PodNodesValues(m, d, n - 1, i);
      if id == PodId(d, n - 1) {
        PodIdInjective(d, i, n - 1);
      }
      assert withPod[id] == PodNodes(m, d, n - 1)[id];
    }
    assert id in withPod && withPod[id] == PodNode(d, i);
    assert id[0] == 'P';
    ContainerNodesKeep(withPod, d, n - 1, |ContainersOf(d)|, id);
    assert PodNodes(m, d, n) == ContainerNodes(withPod, d, n - 1, |ContainersOf(d)|);
  }

  /**
   * Once `d` is processed, its self id holds its self node, each of its Pod
   * ids the node of that replica, and its overflow id the overflow marker,
   * whatever the map held before.
   */
  lemma ResourceNodesValues(m: map<string, Node>, d: Doc)
    ensures SelfId(d) in ResourceNodes(m, d) && ResourceNodes(m, d)[SelfId(d)] == SelfNode(d)
    ensures IsWorkload(d) ==>
              forall i :: 0 <= i < PodCount(d) ==>
                PodId(d, i) in ResourceNodes(m, d) && ResourceNodes(m, d)[PodId(d, i)] == PodNode(d, i)
    ensures IsWorkload(d) && HasOverflow(d) ==>
              MoreId(d) in ResourceNodes(m, d) && ResourceNodes(m, d)[MoreId(d)] == MoreNode(d)
  {
    var withSelf := m[SelfId(d) := SelfNode(d)];
    if IsWorkload(d) {
      var k := KindText(d);
      assert SelfId(d)[0] == k[0] && MoreId(d)[0] == k[0];
      assert k[0] == 'D' || k[0] == 'S';
      PodNodesKeep(withSelf, d, PodCount(d), SelfId(d));
      forall i | 0 <= i < PodCount(d)
        ensures PodId(d, i) in ResourceNodes(m, d) && ResourceNodes(m, d)[PodId(d, i)] == PodNode(d, i)
      {
        PodNodesValues(withSelf, d, PodCount(d), i);
        if HasOverflow(d) {
          WorkloadIdsDisjoint(d, i, i, Container(None));
        }
      }
      if HasOverflow(d) {
        WorkloadIdsDisjoint(d, 0, 0, Container(None));
      }
    }
  }

  /**
   * Ids are unique within one object but not across objects: the overflow
   * marker of a Deployment `x` with 7 replicas has the id of a Deployment
   * named `x-more` in the same namespace, and when that Deployment comes
   * later its node replaces the marker in the graph.
   */
  lemma OverflowMarkerReplaced()
    ensures var x := Doc(Some("Deployment"), Some(Metadata(Some("x"), Some("ns"), None)), Some(Spec(Some(7), None, None)));
            var y := Doc(Some("Deployment"), Some(Metadata(Some("x-more"), Some("ns"), None)), None);
            && HasOverflow(x) && IsWorkload(y)
            && MoreId(x) == SelfId(y)
            && MoreId(x) in Build([x, y]).nodes
            && Build([x, y]).nodes[MoreId(x)] == SelfNode(y)
            && Build([x, y]).nodes[MoreId(x)] != MoreNode(x)
  {
    var x := Doc(Some("Deployment"), Some(Metadata(Some("x"), Some("ns"), None)), Some(Spec(Some(7), None, None)));
    var y := Doc(Some("Deployment"), Some(Metadata(Some("x-more"), Some("ns"), None)), None);
    assert MoreId(x) == SelfId(y);
    assert Nodes([x, y], 2) == ResourceNodes(Nodes([x, y], 1), y);
    ResourceNodesValues(Nodes([x, y], 1), y);
  }

  // ---- ids that are referenced but never inserted ----

  /** The id schemes of the objects a Pod refers to without declaring them. */
  predicate IsReferenceId(id: string)
  {
    "ServiceAccount/" <= id || "ConfigMap/" <= id || "Secret/" <= id
  }

  /** Every "uses" and "mounts" edge points to a reference id. */
  lemma ReferenceTargets(d: Doc, account: string, cm: ConfigMapRef, s: SecretRef)
    ensures IsReferenceId(ServiceAccountId(d, account))
    ensures IsReferenceId(ConfigMapId(d, cm))
    ensures IsReferenceId(SecretId(d, s))
  {
    assert ServiceAccountId(d, account) == "ServiceAccount/" + (NamespaceOf(d) + "/" + account);
    assert ConfigMapId(d, cm) == "ConfigMap/" + (NamespaceOf(d) + "/" + Interpolated(cm.name));
    assert SecretId(d, s) == "Secret/" + (NamespaceOf(d) + "/" + Interpolated(s.secretName));
  }

  /** An id is no reference id when its leading characters rule out all three reference prefixes. */
  lemma HeadNotReference(id: string)
    requires |id| >= 4 && !(id[0] == 'S' && id[1] == 'e') && !(id[0] == 'C' && id[3] == 'f')
    ensures !IsReferenceId(id)
  {
    assert "ServiceAccount/"[0] == 'S' && "ServiceAccount/"[1] == 'e';
    assert "Secret/"[0] == 'S' && "Secret/"[1] == 'e';
    assert "ConfigMap/"[0] == 'C' && "ConfigMap/"[3] == 'f';
  }

  /** None of the ids a workload synthesises (Pods, Containers, overflow marker) is a reference id. */
  lemma SynthesisedNotReference(d: Doc, id: string)
    requires IsOwnKey(d, id) && id != SelfId(d)
    ensures !IsReferenceId(id)
  {
    if HasOverflow(d) && id == MoreId(d) {
      var k := KindText(d);
      assert id[0] == k[0] && id[1] == k[1];
      HeadNotReference(id);
    } else {
      var i :| 0 <= i < PodCount(d) && IsReplicaKey(d, i, id);
      if id == PodId(d, i) {
        assert id[0] == 'P';
        HeadNotReference(id);
      } else {
        var c :| c in ContainersOf(d) && id == ContainerId(d, i, c);
        assert id[0] == 'C' && id[3] == 't';
        HeadNotReference(id);
      }
    }
  }

  /**
   * The ServiceAccount, ConfigMap and Secret ids that "uses" and "mounts"
   * edges point to are nodes of the graph only when an accepted object
   * declares that very id as its own: the builder never inserts them itself.
   */
  lemma ReferencedOnlyIfDeclared(all: seq<Doc>, id: string)
    requires IsReferenceId(id)
    ensures id in Build(all).nodes <==> exists j :: 0 <= j < |all| && SelfId(all[j]) == id
  {
    NodesKeys(all, |all|, id);
    forall j | 0 <= j < |all| && IsOwnKey(all[j], id)
      ensures SelfId(all[j]) == id
    {
      if SelfId(all[j]) != id {
        SynthesisedNotReference(all[j], id);
      }
    }
  }
}
