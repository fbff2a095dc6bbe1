/**
 * Node-id derivation. A declared object is keyed `{kind}/{namespace}/{name}`;
 * the children synthesised for a workload are keyed by a suffix scheme under
 * the owner's namespace and name; referenced-but-undeclared objects
 * (service accounts, config maps, secrets) and routing targets are keyed the
 * same way from the fields that name them.
 */
module NodeIds {
  import opened KubeObjects
  import opened Decimal

  /** `${kind}/${namespace}/${name}` with `name || 'unnamed'` and `namespace || 'default'`. */
  function SelfId(d: Doc): string
  {
    KindText(d) + "/" + NamespaceOf(d) + "/" + NameOf(d)
  }

  /** `${name}-pod-${i}`, the owner-relative name of replica `i`. */
  function PodName(d: Doc, i: nat): string
  {
    NameOf(d) + "-pod-" + NatToString(i)
  }

  /** `Pod/${namespace}/${name}-pod-${i}` */
  function PodId(d: Doc, i: nat): string
  {
    "Pod/" + NamespaceOf(d) + "/" + PodName(d, i)
  }

  /** `Container/${namespace}/${name}-pod-${i}-${container.name}` */
  function ContainerId(d: Doc, i: nat, c: Container): string
  {
    "Container/" + NamespaceOf(d) + "/" + PodName(d, i) + "-" + Interpolated(c.name)
  }

  /** `ServiceAccount/${namespace}/${serviceAccountName}` */
  function ServiceAccountId(d: Doc, account: string): string
  {
    "ServiceAccount/" + NamespaceOf(d) + "/" + account
  }

  /** `ConfigMap/${namespace}/${volume.configMap.name}` */
  function ConfigMapId(d: Doc, cm: ConfigMapRef): string
  {
    "ConfigMap/" + NamespaceOf(d) + "/" + Interpolated(cm.name)
  }

  /** `Secret/${namespace}/${volume.secret.secretName}` */
  function SecretId(d: Doc, s: SecretRef): string
  {
    "Secret/" + NamespaceOf(d) + "/" + Interpolated(s.secretName)
  }

  /** `${nodeId}-more`, the overflow marker of a workload. */
  function MoreId(d: Doc): string
  {
    SelfId(d) + "-more"
  }

  /**
   * The id a Service routes to: `${kind}/${metadata?.namespace || 'default'}/${metadata?.name}`,
   * with the raw name, so a missing name renders as "undefined" rather than "unnamed".
   */
  function RouteTargetId(d: Doc): string
  {
    KindText(d) + "/" + NamespaceOf(d) + "/" + Interpolated(MetaName(d))
  }

  /** `p + a == p + b` forces `a == b`. */
  lemma PrefixCancel(p: string, a: string, b: string)
    requires p + a == p + b
    ensures a == b
  {
    assert a == (p + a)[|p|..];
    assert b == (p + b)[|p|..];
  }

  /** `a + s == b + s` forces `a == b`. */
  lemma SuffixCancel(a: string, b: string, s: string)
    requires a + s == b + s
    ensures a == b
  {
    assert |a| == |b|;
    assert a == (a + s)[..|a|];
    assert b == (b + s)[..|b|];
  }

  /**
   * Two objects that agree on two of kind, namespace and name get the same
   * self id exactly when they agree on the third as well: objects of the same
   * kind and name in different namespaces are different nodes, and same
   * kind, namespace and name collapse into one.
   */
  lemma SelfIdDistinguishes(a: Doc, b: Doc)
    ensures KindText(a) == KindText(b) && NameOf(a) == NameOf(b) ==>
              (SelfId(a) == SelfId(b) <==> NamespaceOf(a) == NamespaceOf(b))
    ensures KindText(a) == KindText(b) && NamespaceOf(a) == NamespaceOf(b) ==>
              (SelfId(a) == SelfId(b) <==> NameOf(a) == NameOf(b))
    ensures NamespaceOf(a) == NamespaceOf(b) && NameOf(a) == NameOf(b) ==>
              (SelfId(a) == SelfId(b) <==> KindText(a) == KindText(b))
  {
    if KindText(a) == KindText(b) && NameOf(a) == NameOf(b) && SelfId(a) == SelfId(b) {
      NamespaceFromSelfId(a, b);
    }
    if KindText(a) == KindText(b) && NamespaceOf(a) == NamespaceOf(b) && SelfId(a) == SelfId(b) {
      NameFromSelfId(a, b);
    }
    if NamespaceOf(a) == NamespaceOf(b) && NameOf(a) == NameOf(b) && SelfId(a) == SelfId(b) {
      KindFromSelfId(a, b);
    }
  }

  lemma NamespaceFromSelfId(a: Doc, b: Doc)
    requires KindText(a) == KindText(b) && NameOf(a) == NameOf(b) && SelfId(a) == SelfId(b)
    ensures NamespaceOf(a) == NamespaceOf(b)
  {
    var k, sa, sb, n := KindText(a), NamespaceOf(a), NamespaceOf(b), NameOf(a);
    assert SelfId(a) == (k + "/") + (sa + ("/" + n));
    assert SelfId(b) == (k + "/") + (sb + ("/" + n));
    PrefixCancel(k + "/", sa + ("/" + n), sb + ("/" + n));
    SuffixCancel(sa, sb, "/" + n);
  }

  lemma NameFromSelfId(a: Doc, b: Doc)
    requires KindText(a) == KindText(b) && NamespaceOf(a) == NamespaceOf(b) && SelfId(a) == SelfId(b)
    ensures NameOf(a) == NameOf(b)
  {
    var p := KindText(a) + "/" + NamespaceOf(a) + "/";
    assert SelfId(a) == p + NameOf(a);
    assert SelfId(b) == p + NameOf(b);
    PrefixCancel(p, NameOf(a), NameOf(b));
  }

  lemma KindFromSelfId(a: Doc, b: Doc)
    requires NamespaceOf(a) == NamespaceOf(b) && NameOf(a) == NameOf(b) && SelfId(a) == SelfId(b)
    ensures KindText(a) == KindText(b)
  {
    var t := "/" + NamespaceOf(a) + "/" + NameOf(a);
    assert SelfId(a) == KindText(a) + t;
    assert SelfId(b) == KindText(b) + t;
    SuffixCancel(KindText(a), KindText(b), t);
  }

  /** The replicas of one owner have pairwise distinct ids. */
  lemma PodIdInjective(d: Doc, i: nat, j: nat)
    requires PodId(d, i) == PodId(d, j)
    ensures i == j
  {
    var p := "Pod/" + NamespaceOf(d) + "/" + NameOf(d) + "-pod-";
    assert PodId(d, i) == p + NatToString(i);
    assert PodId(d, j) == p + NatToString(j);
    PrefixCancel(p, NatToString(i), NatToString(j));
    NatToStringInjective(i, j);
  }

  /** The kinds whose objects are expanded into pods: Deployment, StatefulSet and DaemonSet. */
  predicate IsWorkloadKind(kind: string)
  {
    kind == "Deployment" || kind == "StatefulSet" || kind == "DaemonSet"
  }

  /**
   * Within one workload, the self id, the overflow id and the pod and
   * container ids never coincide: they start with different letters, or
   * differ in length.
   */
  lemma WorkloadIdsDisjoint(d: Doc, i: nat, j: nat, c: Container)
    requires IsWorkloadKind(KindText(d))
    ensures SelfId(d) != PodId(d, i) && SelfId(d) != ContainerId(d, j, c)
    ensures MoreId(d) != PodId(d, i) && MoreId(d) != ContainerId(d, j, c)
    ensures MoreId(d) != SelfId(d)
    ensures PodId(d, i) != ContainerId(d, j, c)
  {
    var k := KindText(d);
    assert k[0] == 'D' || k[0] == 'S';
    assert SelfId(d)[0] == k[0];
    assert MoreId(d)[0] == k[0];
    assert PodId(d, i)[0] == 'P';
    assert ContainerId(d, j, c)[0] == 'C';
    assert |MoreId(d)| == |SelfId(d)| + 5;
  }
}
