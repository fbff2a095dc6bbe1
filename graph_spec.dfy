/**
 * What `buildGraph` computes, as functions of the accepted objects: the node
 * map it fills with `nodes.set` (later writes to an id replace earlier ones)
 * and the edge list it fills with `edges.push` (in discovery order, with
 * duplicates kept). Each function follows one loop of the builder, so the
 * methods in GraphBuilder can be proved equal to them step by step.
 */
module GraphSpec {
  import opened KubeObjects
  import opened Decimal
  import opened Visual
  import opened NodeIds

  datatype Node = Node(id: string, caption: string, kind: string, color: string, size: int)

  datatype Edge = Edge(source: string, target: string, caption: string)

  datatype Graph = Graph(nodes: map<string, Node>, edges: seq<Edge>)

  predicate IsWorkload(d: Doc)
  {
    IsWorkloadKind(KindText(d))
  }

  predicate IsService(d: Doc)
  {
    KindText(d) == "Service"
  }

  /** The number of iterations of `for (let i = 0; i < Math.min(replicas, 5); i++)`. */
  function PodCount(d: Doc): (n: nat)
    ensures n <= 5
  {
    var r := Replicas(d);
    if r < 0 then 0 else if r < 5 then r else 5
  }

  /** `replicas > 5` */
  predicate HasOverflow(d: Doc)
  {
    Replicas(d) > 5
  }

  /**
   * How many replicas a workload expands, read off its `replicas` field: a
   * missing field and 0 both expand one replica, a negative count expands
   * none, any other count `r` expands min(r, 5), and the overflow marker
   * appears exactly when r > 5.
   */
  lemma PodCountOfReplicas(d: Doc)
    ensures d.spec.None? || d.spec.value.replicas.None? ==> PodCount(d) == 1 && !HasOverflow(d)
    ensures d.spec.Some? && d.spec.value.replicas.Some? ==>
              var r := d.spec.value.replicas.value;
              && PodCount(d) == (if r == 0 then 1 else if r < 0 then 0 else if r < 5 then r else 5)
              && (HasOverflow(d) <==> r > 5)
              && (HasOverflow(d) ==> Replicas(d) == r)
  {
  }

  // ---- nodes ----

  function SelfNode(d: Doc): Node
  {
    var kind := KindText(d);
    Node(SelfId(d), kind + "\n" + NameOf(d), kind, Color(kind), Size(kind))
  }

  function PodNode(d: Doc, i: nat): Node
  {
    Node(PodId(d, i), "Pod\n" + NameOf(d) + "-" + NatToString(i), "Pod", Color("Pod"), 40)
  }

  function ContainerNode(d: Doc, i: nat, c: Container): Node
  {
    Node(ContainerId(d, i, c), "Container\n" + Interpolated(c.name), "Container", Color("Container"), 30)
  }

  /** The overflow marker, labelled `... +${replicas - 5} more pods`. */
  function MoreNode(d: Doc): Node
    requires HasOverflow(d)
  {
    Node(MoreId(d), "... +" + NatToString(Replicas(d) - 5) + " more pods", "Pod", "#cbd5e1", 35)
  }

  /** The node map after the `containers.forEach` of replica `i` has seen its first `n` containers. */
  function ContainerNodes(m: map<string, Node>, d: Doc, i: nat, n: nat): map<string, Node>
    requires n <= |ContainersOf(d)|
  {
    if n == 0 then m
    else
      var c := ContainersOf(d)[n - 1];
      ContainerNodes(m, d, i, n - 1)[ContainerId(d, i, c) := ContainerNode(d, i, c)]
  }

  /** The node map after the first `n` replicas of `d` have been expanded. */
  function PodNodes(m: map<string, Node>, d: Doc, n: nat): map<string, Node>
  {
    if n == 0 then m
    else
      var withPod := PodNodes(m, d, n - 1)[PodId(d, n - 1) := PodNode(d, n - 1)];
      ContainerNodes(withPod, d, n - 1, |ContainersOf(d)|)
  }

  /** The node map after the workload branch of `buildGraph` for `d`. */
  function WorkloadNodes(m: map<string, Node>, d: Doc): map<string, Node>
  {
    var pods := PodNodes(m, d, PodCount(d));
    if HasOverflow(d) then pods[MoreId(d) := MoreNode(d)] else pods
  }

  /** The node map after `d` has been processed. */
  function ResourceNodes(m: map<string, Node>, d: Doc): map<string, Node>
  {
    var withSelf := m[SelfId(d) := SelfNode(d)];
    if IsWorkload(d) then WorkloadNodes(withSelf, d) else withSelf
  }

  /** The node map after the first `k` objects of `all` have been processed. */
  function Nodes(all: seq<Doc>, k: nat): map<string, Node>
    requires k <= |all|
  {
    if k == 0 then map[] else ResourceNodes(Nodes(all, k - 1), all[k - 1])
  }

  // ---- edges ----

  /** Regrouping appended edge lists; stated once so that callers need not unfold their operands. */
  lemma ConcatAssoc<X>(a: seq<X>, b: seq<X>, c: seq<X>)
    ensures (a + b) + c == a + (b + c)
  {
  }

  /** Regrouping four lists appended to a fifth, as the replica loop appends them. */
  lemma ConcatAssoc4<X>(w: seq<X>, a: seq<X>, b: seq<X>, c: seq<X>, e: seq<X>)
    ensures (((w + a) + b) + c) + e == w + (((a + b) + c) + e)
  {
    ConcatAssoc(w, a, b);
    ConcatAssoc(w, a + b, c);
    ConcatAssoc(w, (a + b) + c, e);
  }

  function ManagesEdge(d: Doc, i: nat): Edge
  {
    Edge(SelfId(d), PodId(d, i), "manages")
  }

  /** One "contains" edge per container entry of replica `i`. */
  function ContainerEdges(d: Doc, i: nat): seq<Edge>
  {
    var cs := ContainersOf(d);
    seq(|cs|, j requires 0 <= j < |cs| => Edge(PodId(d, i), ContainerId(d, i, cs[j]), "contains"))
  }

  /** The "uses" edge of replica `i`, present iff `serviceAccountName` is truthy. */
  function UsesEdges(d: Doc, i: nat): seq<Edge>
  {
    var account := ServiceAccountOf(d);
    if Truthy(account) then [Edge(PodId(d, i), ServiceAccountId(d, account.value), "uses")] else []
  }

  /** The "mounts" edges of one volume: one for a `configMap`, then one for a `secret`. */
  function VolumeEdges(d: Doc, i: nat, v: Volume): seq<Edge>
  {
    (if v.configMap.Some? then [Edge(PodId(d, i), ConfigMapId(d, v.configMap.value), "mounts")] else [])
    + (if v.secret.Some? then [Edge(PodId(d, i), SecretId(d, v.secret.value), "mounts")] else [])
  }

  /** The "mounts" edges of replica `i` for the first `n` volumes. */
  function MountEdges(d: Doc, i: nat, n: nat): seq<Edge>
    requires n <= |VolumesOf(d)|
  {
    if n == 0 then [] else MountEdges(d, i, n - 1) + VolumeEdges(d, i, VolumesOf(d)[n - 1])
  }

  /** Everything one iteration of the replica loop pushes, in order. */
  function PodEdges(d: Doc, i: nat): seq<Edge>
  {
    [ManagesEdge(d, i)] + ContainerEdges(d, i) + UsesEdges(d, i) + MountEdges(d, i, |VolumesOf(d)|)
  }

  function PodsEdges(d: Doc, n: nat): seq<Edge>
  {
    if n == 0 then [] else PodsEdges(d, n - 1) + PodEdges(d, n - 1)
  }

  function OverflowEdges(d: Doc): seq<Edge>
  {
    if HasOverflow(d) then [Edge(SelfId(d), MoreId(d), "")] else []
  }

  function WorkloadEdges(d: Doc): seq<Edge>
  {
    PodsEdges(d, PodCount(d)) + OverflowEdges(d)
  }

  /** `Object.keys(selector).every(key => labels[key] === selector[key])` */
  predicate SelectorMatches(selector: map<string, string>, labels: map<string, string>)
  {
    forall key :: key in selector ==> key in labels && labels[key] == selector[key]
  }

  /** The routing test: a matching selector that is not empty. */
  predicate Selects(selector: map<string, string>, labels: map<string, string>)
  {
    SelectorMatches(selector, labels) && |selector| > 0
  }

  /** Service `s` routes to `other`: a workload whose labels its selector selects. */
  predicate RoutesTo(s: Doc, other: Doc)
  {
    IsWorkload(other) && Selects(SelectorOf(s), LabelsOf(other))
  }

  function RouteEdge(s: Doc, other: Doc): Edge
  {
    Edge(SelfId(s), RouteTargetId(other), "routes to")
  }

  /** The "routes to" edges of Service `s` towards the first `n` objects of `all`. */
  function RouteEdges(s: Doc, all: seq<Doc>, n: nat): seq<Edge>
    requires n <= |all|
  {
    if n == 0 then []
    else RouteEdges(s, all, n - 1) + (if RoutesTo(s, all[n - 1]) then [RouteEdge(s, all[n - 1])] else [])
  }

  /** Everything the `resources.forEach` callback pushes for `d`. */
  function ResourceEdges(d: Doc, all: seq<Doc>): seq<Edge>
  {
    (if IsWorkload(d) then WorkloadEdges(d) else [])
    + (if IsService(d) then RouteEdges(d, all, |all|) else [])
  }

  /** The edge list after the first `k` objects of `all` have been processed. */
  function Edges(all: seq<Doc>, k: nat): seq<Edge>
    requires k <= |all|
  {
    if k == 0 then [] else Edges(all, k - 1) + ResourceEdges(all[k - 1], all)
  }

  /** The graph `buildGraph` hands to the renderer. */
  function Build(all: seq<Doc>): Graph
  {
    Graph(Nodes(all, |all|), Edges(all, |all|))
  }
}
