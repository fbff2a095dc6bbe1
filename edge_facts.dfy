/**
 * What the edge list of `buildGraph` contains, edge kind by edge kind. Each
 * edge kind has its own label ("manages", "contains", "uses", "mounts",
 * "routes to", and "" for the overflow marker), so the edges one object
 * contributes are split up by label.
 */
module EdgeFacts {
  import opened KubeObjects
  import opened NodeIds
  import opened GraphSpec

  /** The edges of `es` with label `caption`, in their original order. */
  function Captioned(es: seq<Edge>, caption: string): (r: seq<Edge>)
    ensures |r| <= |es|
  {
    if es == [] then []
    else (if es[0].caption == caption then [es[0]] else []) + Captioned(es[1..], caption)
  }

  /** Selecting by label keeps exactly the edges that carry that label. */
  lemma {:induction false} CaptionedMembership(es: seq<Edge>, caption: string, e: Edge)
    ensures e in Captioned(es, caption) <==> e in es && e.caption == caption
  {
    if es != [] {
      CaptionedMembership(es[1..], caption, e);
      assert es == [es[0]] + es[1..];
    }
  }

  lemma {:induction false} CaptionedConcat(a: seq<Edge>, b: seq<Edge>, caption: string)
    ensures Captioned(a + b, caption) == Captioned(a, caption) + Captioned(b, caption)
  {
    if a == [] {
      assert a + b == b;
    } else {
      var head := if a[0].caption == caption then [a[0]] else [];
      assert (a + b)[0] == a[0];
      assert (a + b)[1..] == a[1..] + b;
      CaptionedConcat(a[1..], b, caption);
      assert Captioned(a + b, caption) == head + Captioned(a[1..] + b, caption);
      assert Captioned(a, caption) == head + Captioned(a[1..], caption);
      ConcatAssoc(head, Captioned(a[1..], caption), Captioned(b, caption));
    }
  }

  /** A list whose edges all carry one label is kept whole for that label and dropped for any other. */
  lemma {:induction false} CaptionedUniform(es: seq<Edge>, c: string, caption: string)
    requires forall e :: e in es ==> e.caption == c
    ensures Captioned(es, caption) == if caption == c then es else []
  {
    if es != [] {
      assert es == [es[0]] + es[1..];
      CaptionedUniform(es[1..], c, caption);
    }
  }

  /** How many references the volumes hold: one per `configMap` and one per `secret`. */
  function MountedRefs(vs: seq<Volume>): nat
  {
    if vs == [] then 0
    else
      var v := vs[|vs| - 1];
      MountedRefs(vs[..|vs| - 1]) + (if v.configMap.Some? then 1 else 0) + (if v.secret.Some? then 1 else 0)
  }

  /**
   * The "mounts" edges of a replica all leave that replica's Pod, one per
   * volume with a `configMap` plus one per volume with a `secret`: a volume
   * with both yields two.
   */
  lemma {:induction false} MountEdgesShape(d: Doc, i: nat, n: nat)
    requires n <= |VolumesOf(d)|
    ensures forall e :: e in MountEdges(d, i, n) ==> e.caption == "mounts" && e.source == PodId(d, i)
    ensures |MountEdges(d, i, n)| == MountedRefs(VolumesOf(d)[..n])
  {
    if n > 0 {
      MountEdgesShape(d, i, n - 1);
      assert VolumesOf(d)[..n][..n - 1] == VolumesOf(d)[..n - 1];
    }
  }

  /** The "contains" edges of a replica all leave that replica's Pod. */
  lemma ContainerEdgesShape(d: Doc, i: nat)
    ensures forall e :: e in ContainerEdges(d, i) ==> e.caption == "contains" && e.source == PodId(d, i)
  {
  }

  /** The edges of one replica labelled `caption`, as the replica loop pushes them. */
  function PodCaptioned(d: Doc, i: nat, caption: string): seq<Edge>
  {
    if caption == "manages" then [ManagesEdge(d, i)]
    else if caption == "contains" then ContainerEdges(d, i)
    else if caption == "uses" then UsesEdges(d, i)
    else if caption == "mounts" then MountEdges(d, i, |VolumesOf(d)|)
    else []
  }

  /** The edges of one replica, split up by label. */
  lemma PodEdgesByCaption(d: Doc, i: nat, caption: string)
    ensures Captioned(PodEdges(d, i), caption) == PodCaptioned(d, i, caption)
  {
    var m, c, u, v := [ManagesEdge(d, i)], ContainerEdges(d, i), UsesEdges(d, i), MountEdges(d, i, |VolumesOf(d)|);
    CaptionedConcat(m + c + u, v, caption);
    CaptionedConcat(m + c, u, caption);
    CaptionedConcat(m, c, caption);
    CaptionedUniform(m, "manages", caption);
    ContainerEdgesShape(d, i);
    CaptionedUniform(c, "contains", caption);
    CaptionedUniform(u, "uses", caption);
    MountEdgesShape(d, i, |VolumesOf(d)|);
    CaptionedUniform(v, "mounts", caption);
    var r := Captioned(PodEdges(d, i), caption);
    if caption == "manages" {
      assert r == m + [] + [] + [];
    } else if caption == "contains" {
      assert r == [] + c + [] + [];
    } else if caption == "uses" {
      assert r == [] + [] + u + [];
    } else if caption == "mounts" {
      assert r == [] + [] + [] + v;
    } else {
      assert r == [] + [] + [] + [];
    }
  }

  /** The "manages" edges of the first `n` replicas: one per replica, in replica order. */
  function ManagesEdges(d: Doc, n: nat): (r: seq<Edge>)
    ensures |r| == n
  {
    if n == 0 then [] else ManagesEdges(d, n - 1) + [ManagesEdge(d, n - 1)]
  }

  /** The `i`-th "manages" edge targets replica `i`. */
  lemma {:induction false} ManagesEdgesAt(d: Doc, n: nat, i: nat)
    requires i < n
    ensures ManagesEdges(d, n)[i] == ManagesEdge(d, i)
  {
    if i < n - 1 {
      ManagesEdgesAt(d, n - 1, i);
    }
  }

  lemma ManagesEdgesMembership(d: Doc, n: nat, e: Edge)
    ensures e in ManagesEdges(d, n) <==> exists i :: 0 <= i < n && e == ManagesEdge(d, i)
  {
    if e in ManagesEdges(d, n) {
      var k :| 0 <= k < n && ManagesEdges(d, n)[k] == e;
      ManagesEdgesAt(d, n, k);
    }
    if i :| 0 <= i < n && e == ManagesEdge(d, i) {
      ManagesEdgesAt(d, n, i);
    }
  }

  /** How many edges labelled `caption` every replica of `d` contributes. */
  function PerPod(d: Doc, caption: string): nat
  {
    var vs := VolumesOf(d);
    (if caption == "manages" then 1 else 0)
    + (if caption == "contains" then |ContainersOf(d)| else 0)
    + (if caption == "uses" && Truthy(ServiceAccountOf(d)) then 1 else 0)
    + (if caption == "mounts" then MountedRefs(vs) else 0)
  }

  lemma PodEdgesCount(d: Doc, i: nat, caption: string)
    ensures |Captioned(PodEdges(d, i), caption)| == PerPod(d, caption)
  {
    PodEdgesByCaption(d, i, caption);
    MountEdgesShape(d, i, |VolumesOf(d)|);
    assert VolumesOf(d)[..|VolumesOf(d)|] == VolumesOf(d);
  }

  /** Each of the first `n` replicas contributes the same number of edges of every label. */
  lemma {:induction false} PodsEdgesCount(d: Doc, n: nat, caption: string)
    ensures |Captioned(PodsEdges(d, n), caption)| == n * PerPod(d, caption)
  {
    if n > 0 {
      PodsEdgesCount(d, n - 1, caption);
      CaptionedConcat(PodsEdges(d, n - 1), PodEdges(d, n - 1), caption);
      PodEdgesCount(d, n - 1, caption);
      assert n * PerPod(d, caption) == (n - 1) * PerPod(d, caption) + PerPod(d, caption);
    }
  }

  /** The first `n` replicas have one "uses" edge each when the service account is truthy, none otherwise. */
  lemma {:induction false} PodsUses(d: Doc, n: nat)
    ensures |Captioned(PodsEdges(d, n), "uses")| == if Truthy(ServiceAccountOf(d)) then n else 0
  {
    if n > 0 {
      PodsUses(d, n - 1);
      CaptionedConcat(PodsEdges(d, n - 1), PodEdges(d, n - 1), "uses");
      PodEdgesByCaption(d, n - 1, "uses");
    }
  }

  /** The "manages" edges of the first `n` replicas are one per replica, in replica order. */
  lemma {:induction false} PodsManages(d: Doc, n: nat)
    ensures Captioned(PodsEdges(d, n), "manages") == ManagesEdges(d, n)
  {
    if n > 0 {
      PodsManages(d, n - 1);
      CaptionedConcat(PodsEdges(d, n - 1), PodEdges(d, n - 1), "manages");
      PodEdgesByCaption(d, n - 1, "manages");
      assert PodCaptioned(d, n - 1, "manages") == [ManagesEdge(d, n - 1)];
    }
  }

  /** The edges of a workload labelled `caption`: those of its replicas, then the overflow edge for "". */
  lemma WorkloadCaptioned(d: Doc, caption: string)
    ensures Captioned(WorkloadEdges(d), caption) ==
              Captioned(PodsEdges(d, PodCount(d)), caption) + (if caption == "" then OverflowEdges(d) else [])
  {
    CaptionedConcat(PodsEdges(d, PodCount(d)), OverflowEdges(d), caption);
    CaptionedUniform(OverflowEdges(d), "", caption);
  }

  /** The edges of one object labelled `caption`: its workload part, then its routing part for "routes to". */
  lemma ResourceCaptioned(d: Doc, all: seq<Doc>, caption: string)
    ensures Captioned(ResourceEdges(d, all), caption) ==
              (if IsWorkload(d) then Captioned(WorkloadEdges(d), caption) else [])
              + (if IsService(d) && caption == "routes to" then RouteEdges(d, all, |all|) else [])
  {
    var w := if IsWorkload(d) then WorkloadEdges(d) else [];
    var r := if IsService(d) then RouteEdges(d, all, |all|) else [];
    CaptionedConcat(w, r, caption);
    RouteEdgesShape(d, all, |all|);
    CaptionedUniform(r, "routes to", caption);
  }

  /** Replicas carry only the four labels of the replica loop: none of their edges has any other label. */
  lemma {:induction false} PodsEdgesOtherLabels(d: Doc, n: nat, caption: string)
    requires caption != "manages" && caption != "contains" && caption != "uses" && caption != "mounts"
    ensures Captioned(PodsEdges(d, n), caption) == []
  {
    if n > 0 {
      PodsEdgesOtherLabels(d, n - 1, caption);
      CaptionedConcat(PodsEdges(d, n - 1), PodEdges(d, n - 1), caption);
      PodEdgesByCaption(d, n - 1, caption);
    }
  }

  /** For the labels of replica edges, an object contributes PerPod of them per replica it expands. */
  lemma ReplicaLabelCount(d: Doc, all: seq<Doc>, caption: string)
    requires caption != "" && caption != "routes to"
    ensures |Captioned(ResourceEdges(d, all), caption)| == if IsWorkload(d) then PodCount(d) * PerPod(d, caption) else 0
  {
    ResourceCaptioned(d, all, caption);
    var own := Captioned(ResourceEdges(d, all), caption);
    if IsWorkload(d) {
      WorkloadCaptioned(d, caption);
      PodsEdgesCount(d, PodCount(d), caption);
      assert own == Captioned(PodsEdges(d, PodCount(d)), caption);
    } else {
      assert own == [];
    }
  }

  /**
   * A workload contributes exactly PodCount "manages" edges from its self
   * node, in replica order; any other object contributes none.
   */
  lemma ResourceManages(d: Doc, all: seq<Doc>)
    ensures Captioned(ResourceEdges(d, all), "manages") ==
              if IsWorkload(d) then ManagesEdges(d, PodCount(d)) else []
  {
    ResourceCaptioned(d, all, "manages");
    WorkloadCaptioned(d, "manages");
    PodsManages(d, PodCount(d));
  }

  /** A workload has a "contains" edge per replica and container entry; any other object has none. */
  lemma ResourceContains(d: Doc, all: seq<Doc>)
    ensures |Captioned(ResourceEdges(d, all), "contains")| ==
              if IsWorkload(d) then PodCount(d) * |ContainersOf(d)| else 0
  {
    ReplicaLabelCount(d, all, "contains");
    assert PerPod(d, "contains") == |ContainersOf(d)|;
  }

  /** A workload that names a service account has a "uses" edge per replica; no other object has any. */
  lemma ResourceUses(d: Doc, all: seq<Doc>)
    ensures |Captioned(ResourceEdges(d, all), "uses")| ==
              if IsWorkload(d) && Truthy(ServiceAccountOf(d)) then PodCount(d) else 0
  {
    ResourceCaptioned(d, all, "uses");
    if IsWorkload(d) {
      WorkloadCaptioned(d, "uses");
      PodsUses(d, PodCount(d));
    }
  }

  /** A workload has a "mounts" edge per replica and mounted config map or secret; any other object has none. */
  lemma ResourceMounts(d: Doc, all: seq<Doc>)
    ensures |Captioned(ResourceEdges(d, all), "mounts")| ==
              if IsWorkload(d) then PodCount(d) * MountedRefs(VolumesOf(d)) else 0
  {
    ReplicaLabelCount(d, all, "mounts");
    assert PerPod(d, "mounts") == MountedRefs(VolumesOf(d));
  }

  /** The only unlabelled edge of an object is a workload's overflow edge, present when replicas > 5. */
  lemma ResourceOverflow(d: Doc, all: seq<Doc>)
    ensures Captioned(ResourceEdges(d, all), "") == if IsWorkload(d) then OverflowEdges(d) else []
  {
    ResourceCaptioned(d, all, "");
    WorkloadCaptioned(d, "");
    PodsEdgesOtherLabels(d, PodCount(d), "");
  }

  /** Only a Service has "routes to" edges, and they are all of its routing edges. */
  lemma ResourceRoutes(d: Doc, all: seq<Doc>)
    ensures Captioned(ResourceEdges(d, all), "routes to") ==
              if IsService(d) then RouteEdges(d, all, |all|) else []
  {
    ResourceCaptioned(d, all, "routes to");
    WorkloadCaptioned(d, "routes to");
    PodsEdgesOtherLabels(d, PodCount(d), "routes to");
  }

  /** Every edge of one replica leaves the owner (its "manages" edge) or the replica's own Pod. */
  lemma PodEdgesSources(d: Doc, i: nat)
    ensures forall e :: e in PodEdges(d, i) ==> e.source == SelfId(d) || e.source == PodId(d, i)
  {
    ContainerEdgesShape(d, i);
    MountEdgesShape(d, i, |VolumesOf(d)|);
  }

  /** Every edge of the first `n` replicas leaves the owner or one of those replicas. */
  lemma {:induction false} PodsEdgesSources(d: Doc, n: nat)
    ensures forall e :: e in PodsEdges(d, n) ==>
              e.source == SelfId(d) || exists i :: 0 <= i < n && e.source == PodId(d, i)
  {
    if n > 0 {
      PodsEdgesSources(d, n - 1);
      PodEdgesSources(d, n - 1);
      assert PodsEdges(d, n) == PodsEdges(d, n - 1) + PodEdges(d, n - 1);
      forall e | e in PodsEdges(d, n) && e.source != SelfId(d)
        ensures exists i :: 0 <= i < n && e.source == PodId(d, i)
      {
        if e in PodsEdges(d, n - 1) {
          var i :| 0 <= i < n - 1 && e.source == PodId(d, i);
          assert 0 <= i < n;
        } else {
          assert e.source == PodId(d, n - 1);
        }
      }
    }
  }

  /**
   * The overflow marker of a workload is never expanded: none of the edges
   * the workload contributes leaves it.
   */
  lemma OverflowNotExpanded(d: Doc, all: seq<Doc>)
    requires IsWorkload(d)
    ensures forall e :: e in ResourceEdges(d, all) ==> e.source != MoreId(d)
  {
    PodsEdgesSources(d, PodCount(d));
    forall i: nat {
      WorkloadIdsDisjoint(d, i, 0, Container(None));
    }
    assert ResourceEdges(d, all) == PodsEdges(d, PodCount(d)) + OverflowEdges(d) + [];
  }

  /** Every routing edge of a Service leaves the Service and carries the "routes to" label. */
  lemma {:induction false} RouteEdgesShape(s: Doc, all: seq<Doc>, n: nat)
    requires n <= |all|
    ensures forall e :: e in RouteEdges(s, all, n) ==> e.caption == "routes to" && e.source == SelfId(s)
  {
    if n > 0 {
      RouteEdgesShape(s, all, n - 1);
    }
  }

  /**
   * A Service routes to a target exactly when some workload among the first
   * `n` objects has that routing id and labels its selector selects; objects
   * of any other kind are never routing targets.
   */
  lemma {:induction false} RouteEdgesIff(s: Doc, all: seq<Doc>, n: nat, e: Edge)
    requires n <= |all|
    ensures e in RouteEdges(s, all, n) <==>
              exists j :: 0 <= j < n && RoutesTo(s, all[j]) && e == RouteEdge(s, all[j])
  {
    if n > 0 {
      var last := if RoutesTo(s, all[n - 1]) then [RouteEdge(s, all[n - 1])] else [];
      assert RouteEdges(s, all, n) == RouteEdges(s, all, n - 1) + last;
      RouteEdgesIff(s, all, n - 1, e);
      if e in RouteEdges(s, all, n) {
        if e in last {
          assert RoutesTo(s, all[n - 1]) && e == RouteEdge(s, all[n - 1]);
        }
      } else {
        forall j | 0 <= j < n && RoutesTo(s, all[j])
          ensures e != RouteEdge(s, all[j])
        {
          if j == n - 1 {
            assert RouteEdge(s, all[j]) in last;
          }
        }
      }
    }
  }

  /** A Service with an empty (or missing) selector routes nowhere. */
  lemma {:induction false} EmptySelectorRoutesNowhere(s: Doc, all: seq<Doc>, n: nat)
    requires n <= |all|
    requires SelectorOf(s) == map[]
    ensures RouteEdges(s, all, n) == []
  {
    if n > 0 {
      EmptySelectorRoutesNowhere(s, all, n - 1);
    }
  }

  /** Labels beyond those the selector names never prevent a match. */
  lemma ExtraLabelsIgnored(selector: map<string, string>, labels: map<string, string>, more: map<string, string>)
    requires Selects(selector, labels)
    requires forall key :: key in labels ==> key in more && more[key] == labels[key]
    ensures Selects(selector, more)
  {
  }

  /**
   * The routing target is the workload's own node id exactly when the
   * workload has a non-empty name: with the name missing the edge points to
   * ".../undefined", and with an empty name to ".../", while the node itself
   * is ".../unnamed".
   */
  lemma RouteTargetIsSelfIdIff(o: Doc)
    ensures RouteTargetId(o) == SelfId(o) <==> Truthy(MetaName(o))
  {
    var p := KindText(o) + "/" + NamespaceOf(o) + "/";
    if RouteTargetId(o) == SelfId(o) {
      assert RouteTargetId(o) == p + Interpolated(MetaName(o));
      assert SelfId(o) == p + NameOf(o);
      PrefixCancel(p, Interpolated(MetaName(o)), NameOf(o));
      assert Interpolated(MetaName(o)) != "unnamed" || MetaName(o) == Some("unnamed");
    }
  }

  /** The concatenation of `parts`, in order. */
  function Flatten(parts: seq<seq<Edge>>): seq<Edge>
  {
    if parts == [] then [] else Flatten(parts[..|parts| - 1]) + parts[|parts| - 1]
  }

  lemma {:induction false} FlattenMembership(parts: seq<seq<Edge>>, e: Edge)
    ensures e in Flatten(parts) <==> exists j :: 0 <= j < |parts| && e in parts[j]
  {
    if parts != [] {
      var init := parts[..|parts| - 1];
      FlattenMembership(init, e);
      assert forall j :: 0 <= j < |init| ==> init[j] == parts[j];
    }
  }

  /** The contributions of the first `k` objects, one list per object. */
  function Contributions(all: seq<Doc>, k: nat): (parts: seq<seq<Edge>>)
    requires k <= |all|
    ensures |parts| == k
  {
    seq(k, j requires 0 <= j < k => ResourceEdges(all[j], all))
  }

  /** The whole edge list is the per-object contributions, object after object. */
  lemma {:induction false} EdgesAreContributions(all: seq<Doc>, k: nat)
    requires k <= |all|
    ensures Edges(all, k) == Flatten(Contributions(all, k))
  {
    if k > 0 {
      EdgesAreContributions(all, k - 1);
      assert Contributions(all, k)[..k - 1] == Contributions(all, k - 1);
    }
  }

  lemma EdgesMembership(all: seq<Doc>, k: nat, e: Edge)
    requires k <= |all|
    ensures e in Edges(all, k) <==> exists j :: 0 <= j < k && e in ResourceEdges(all[j], all)
  {
    EdgesAreContributions(all, k);
    FlattenMembership(Contributions(all, k), e);
  }

  /**
   * Routing over the whole graph: an edge labelled "routes to" is present
   * exactly when some Service among the objects selects the labels of some
   * workload among them, and it then runs from that Service's node to the
   * workload's routing id.
   */
  lemma RoutesInGraph(all: seq<Doc>, e: Edge)
    ensures (e in Build(all).edges && e.caption == "routes to") <==>
              exists j, k :: 0 <= j < |all| && 0 <= k < |all| && IsService(all[j]) && RoutesTo(all[j], all[k])
                             && e == RouteEdge(all[j], all[k])
  {
    EdgesMembership(all, |all|, e);
    forall j | 0 <= j < |all|
      ensures (e in ResourceEdges(all[j], all) && e.caption == "routes to") <==>
                IsService(all[j]) && e in RouteEdges(all[j], all, |all|)
    {
      ResourceRoutes(all[j], all);
      CaptionedMembership(ResourceEdges(all[j], all), "routes to", e);
      RouteEdgesShape(all[j], all, |all|);
    }
    forall j | 0 <= j < |all|
      ensures e in RouteEdges(all[j], all, |all|) <==>
                exists k :: 0 <= k < |all| && RoutesTo(all[j], all[k]) && e == RouteEdge(all[j], all[k])
    {
      RouteEdgesIff(all[j], all, |all|, e);
    }
  }

  /**
   * Ownership over the whole graph: an edge labelled "manages" is present
   * exactly when it runs from a workload among the objects to one of that
   * workload's first PodCount replicas.
   */
  lemma ManagesInGraph(all: seq<Doc>, e: Edge)
    ensures (e in Build(all).edges && e.caption == "manages") <==>
              exists j, i :: 0 <= j < |all| && IsWorkload(all[j]) && 0 <= i < PodCount(all[j])
                             && e == ManagesEdge(all[j], i)
  {
    EdgesMembership(all, |all|, e);
    forall j | 0 <= j < |all|
      ensures (e in ResourceEdges(all[j], all) && e.caption == "manages") <==>
                IsWorkload(all[j]) && e in ManagesEdges(all[j], PodCount(all[j]))
    {
      ResourceManages(all[j], all);
      CaptionedMembership(ResourceEdges(all[j], all), "manages", e);
    }
    forall j | 0 <= j < |all| && IsWorkload(all[j])
      ensures e in ManagesEdges(all[j], PodCount(all[j])) <==>
                exists i :: 0 <= i < PodCount(all[j]) && e == ManagesEdge(all[j], i)
    {
      ManagesEdgesMembership(all[j], PodCount(all[j]), e);
    }
  }
}
