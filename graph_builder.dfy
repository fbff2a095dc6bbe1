/**
 * `buildGraph` without the renderer calls: the node map and the edge list are
 * local variables that the loops update in place, one method per loop of the
 * original (the outer `resources.forEach`, its callback, the replica loop, and
 * the `containers`, `volumes` and routing `forEach` loops). Each method is
 * proved equal to the corresponding function of GraphSpec.
 */
module GraphBuilder {
  import opened KubeObjects
  import opened NodeIds
  import opened GraphSpec

  /** `containers.forEach` for replica `i`: one Container node and one "contains" edge per entry. */
  method AddContainers(nodes: map<string, Node>, edges: seq<Edge>, d: Doc, i: nat)
    returns (nodes': map<string, Node>, edges': seq<Edge>)
    ensures nodes' == ContainerNodes(nodes, d, i, |ContainersOf(d)|)
    ensures edges' == edges + ContainerEdges(d, i)
  {
    var containers := ContainersOf(d);
    var podId := PodId(d, i);
    nodes', edges' := nodes, edges;
    var j := 0;
    while j < |containers|
      invariant 0 <= j <= |containers|
      invariant nodes' == ContainerNodes(nodes, d, i, j)
      invariant edges' == edges + ContainerEdges(d, i)[..j]
    {
      var c := containers[j];
      var containerId := ContainerId(d, i, c);
      nodes' := nodes'[containerId := ContainerNode(d, i, c)];
      edges' := edges' + [Edge(podId, containerId, "contains")];
      assert ContainerEdges(d, i)[..j + 1] == ContainerEdges(d, i)[..j] + [Edge(podId, containerId, "contains")];
      j := j + 1;
    }
    assert ContainerEdges(d, i)[..j] == ContainerEdges(d, i);
  }

  /** `volumes.forEach` for replica `i`: a "mounts" edge per `configMap` and per `secret`. */
  method AddMounts(edges: seq<Edge>, d: Doc, i: nat) returns (edges': seq<Edge>)
    ensures edges' == edges + MountEdges(d, i, |VolumesOf(d)|)
  {
    var volumes := VolumesOf(d);
    var podId := PodId(d, i);
    edges' := edges;
    var j := 0;
    while j < |volumes|
      invariant 0 <= j <= |volumes|
      invariant edges' == edges + MountEdges(d, i, j)
    {
      var volume := volumes[j];
      ghost var before := edges';
      if volume.configMap.Some? {
        edges' := edges' + [Edge(podId, ConfigMapId(d, volume.configMap.value), "mounts")];
      }
      if volume.secret.Some? {
        edges' := edges' + [Edge(podId, SecretId(d, volume.secret.value), "mounts")];
      }
      assert edges' == before + VolumeEdges(d, i, volume);
      j := j + 1;
    }
  }

  /** One iteration of the replica loop: the Pod node, then its "manages", "contains", "uses" and "mounts" edges. */
  method AddPod(nodes: map<string, Node>, edges: seq<Edge>, d: Doc, i: nat)
    returns (nodes': map<string, Node>, edges': seq<Edge>)
    ensures nodes' == ContainerNodes(nodes[PodId(d, i) := PodNode(d, i)], d, i, |ContainersOf(d)|)
    ensures edges' == edges + PodEdges(d, i)
  {
    var podId := PodId(d, i);
    nodes' := nodes[podId := PodNode(d, i)];
    edges' := edges + [Edge(SelfId(d), podId, "manages")];
    ghost var managed := edges';
    nodes', edges' := AddContainers(nodes', edges', d, i);
    ghost var contained := edges';
    var account := ServiceAccountOf(d);
    if account.Some? && account.value != "" {
      edges' := edges' + [Edge(podId, ServiceAccountId(d, account.value), "uses")];
    }
    assert edges' == contained + UsesEdges(d, i);
    ghost var used := edges';
    edges' := AddMounts(edges', d, i);
    assert edges' == used + MountEdges(d, i, |VolumesOf(d)|);
    ConcatAssoc4(edges, [ManagesEdge(d, i)], ContainerEdges(d, i), UsesEdges(d, i), MountEdges(d, i, |VolumesOf(d)|));
  }

  /** The replica loop `for (let i = 0; i < Math.min(replicas, 5); i++)`. */
  method AddPods(nodes: map<string, Node>, edges: seq<Edge>, d: Doc)
    returns (nodes': map<string, Node>, edges': seq<Edge>)
    ensures nodes' == PodNodes(nodes, d, PodCount(d))
    ensures edges' == edges + PodsEdges(d, PodCount(d))
  {
    var replicas := Replicas(d);
    var limit := if replicas < 5 then replicas else 5;
    nodes', edges' := nodes, edges;
    var i: nat := 0;
    while i < limit
      invariant i <= PodCount(d)
      invariant nodes' == PodNodes(nodes, d, i)
      invariant edges' == edges + PodsEdges(d, i)
      decreases limit - i
    {
      assert PodNodes(nodes, d, i + 1) == ContainerNodes(PodNodes(nodes, d, i)[PodId(d, i) := PodNode(d, i)], d, i, |ContainersOf(d)|);
      assert PodsEdges(d, i + 1) == PodsEdges(d, i) + PodEdges(d, i);
      nodes', edges' := AddPod(nodes', edges', d, i);
      ConcatAssoc(edges, PodsEdges(d, i), PodEdges(d, i));
      i := i + 1;
    }
    assert i == PodCount(d);
  }

  /** The workload branch: the replicas, then the overflow marker when `replicas > 5`. */
  method AddWorkload(nodes: map<string, Node>, edges: seq<Edge>, d: Doc)
    returns (nodes': map<string, Node>, edges': seq<Edge>)
    ensures nodes' == WorkloadNodes(nodes, d)
    ensures edges' == edges + WorkloadEdges(d)
  {
    nodes', edges' := AddPods(nodes, edges, d);
    if Replicas(d) > 5 {
      var moreNodeId := MoreId(d);
      nodes' := nodes'[moreNodeId := MoreNode(d)];
      edges' := edges' + [Edge(SelfId(d), moreNodeId, "")];
    }
  }

  /** The Service branch: a "routes to" edge to every workload whose labels the selector selects. */
  method AddRoutes(edges: seq<Edge>, s: Doc, resources: seq<Doc>) returns (edges': seq<Edge>)
    ensures edges' == edges + RouteEdges(s, resources, |resources|)
  {
    var nodeId := SelfId(s);
    var selector := SelectorOf(s);
    edges' := edges;
    var k := 0;
    while k < |resources|
      invariant 0 <= k <= |resources|
      invariant edges' == edges + RouteEdges(s, resources, k)
    {
      var other := resources[k];
      var kind := KindText(other);
      if kind == "Deployment" || kind == "StatefulSet" || kind == "DaemonSet" {
        var labels := LabelsOf(other);
        var matches := SelectorMatches(selector, labels);
        if matches && |selector| > 0 {
          edges' := edges' + [Edge(nodeId, RouteTargetId(other), "routes to")];
        }
      }
      k := k + 1;
    }
  }

  /** The `resources.forEach` callback: the self node, then the workload or Service branch. */
  method AddResource(nodes: map<string, Node>, edges: seq<Edge>, d: Doc, resources: seq<Doc>)
    returns (nodes': map<string, Node>, edges': seq<Edge>)
    ensures nodes' == ResourceNodes(nodes, d)
    ensures edges' == edges + ResourceEdges(d, resources)
  {
    var kind := KindText(d);
    nodes' := nodes[SelfId(d) := SelfNode(d)];
    edges' := edges;
    if kind == "Deployment" || kind == "StatefulSet" || kind == "DaemonSet" {
      nodes', edges' := AddWorkload(nodes', edges', d);
    }
    ghost var afterWorkload := edges';
    if kind == "Service" {
      edges' := AddRoutes(edges', d, resources);
    }
    assert edges' == afterWorkload + (if IsService(d) then RouteEdges(d, resources, |resources|) else []);
  }

  /** `buildGraph`: every accepted object, in order, contributes its nodes and edges. */
  method BuildGraph(resources: seq<Doc>) returns (nodes: map<string, Node>, edges: seq<Edge>)
    ensures Graph(nodes, edges) == Build(resources)
  {
    nodes, edges := map[], [];
    var k := 0;
    while k < |resources|
      invariant 0 <= k <= |resources|
      invariant nodes == Nodes(resources, k)
      invariant edges == Edges(resources, k)
    {
      nodes, edges := AddResource(nodes, edges, resources[k], resources);
      k := k + 1;
    }
  }
}
