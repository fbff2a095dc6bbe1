/**
 * The parsed documents the visualizer works on, as the YAML parser hands them
 * over: every field the graph builder reads is optional, and the accessors
 * below make each default-substitution point (`?.`, `|| default` and
 * template-literal interpolation of a missing value) explicit.
 */
module KubeObjects {

  datatype Option<+T> = None | Some(value: T)

  /** One entry of `spec.template.spec.containers`; only its `name` is read. */
  datatype Container = Container(name: Option<string>)

  /** The `configMap` part of a pod volume; only its `name` is read. */
  datatype ConfigMapRef = ConfigMapRef(name: Option<string>)

  /** The `secret` part of a pod volume; only its `secretName` is read. */
  datatype SecretRef = SecretRef(secretName: Option<string>)

  /** One entry of `spec.template.spec.volumes`. */
  datatype Volume = Volume(configMap: Option<ConfigMapRef>, secret: Option<SecretRef>)

  datatype PodSpec = PodSpec(
    containers: Option<seq<Container>>,
    serviceAccountName: Option<string>,
    volumes: Option<seq<Volume>>)

  datatype PodTemplate = PodTemplate(spec: Option<PodSpec>)

  datatype Spec = Spec(
    replicas: Option<int>,
    template: Option<PodTemplate>,
    selector: Option<map<string, string>>)

  datatype Metadata = Metadata(
    name: Option<string>,
    namespace: Option<string>,
    labels: Option<map<string, string>>)

  /** A document that the parser produced as a mapping. */
  datatype Doc = Doc(kind: Option<string>, metadata: Option<Metadata>, spec: Option<Spec>)

  /** `x || fallback` for a string field: a missing or empty string is falsy. */
  function StringOr(x: Option<string>, fallback: string): (s: string)
    ensures Truthy(x) ==> s == x.value
    ensures !Truthy(x) ==> s == fallback
    ensures fallback != "" ==> s != ""
  {
    if x.Some? && x.value != "" then x.value else fallback
  }

  /** `${x}`: interpolating a missing value yields the text "undefined". */
  function Interpolated(x: Option<string>): string
  {
    match x
    case Some(s) => s
    case None => "undefined"
  }

  /** `resource.kind` as it appears inside ids and labels. */
  function KindText(d: Doc): string
  {
    Interpolated(d.kind)
  }

  /** `resource.metadata?.name` */
  function MetaName(d: Doc): Option<string>
  {
    if d.metadata.Some? then d.metadata.value.name else None
  }

  /** `resource.metadata?.namespace` */
  function MetaNamespace(d: Doc): Option<string>
  {
    if d.metadata.Some? then d.metadata.value.namespace else None
  }

  /** `resource.metadata?.name || 'unnamed'` */
  function NameOf(d: Doc): (name: string)
    ensures Truthy(MetaName(d)) ==> name == MetaName(d).value
    ensures !Truthy(MetaName(d)) ==> name == "unnamed"
    ensures name != ""
  {
    StringOr(MetaName(d), "unnamed")
  }

  /** `resource.metadata?.namespace || 'default'` */
  function NamespaceOf(d: Doc): (ns: string)
    ensures Truthy(MetaNamespace(d)) ==> ns == MetaNamespace(d).value
    ensures !Truthy(MetaNamespace(d)) ==> ns == "default"
    ensures ns != ""
  {
    StringOr(MetaNamespace(d), "default")
  }

  /** `resource.metadata?.labels || {}` */
  function LabelsOf(d: Doc): map<string, string>
  {
    if d.metadata.Some? && d.metadata.value.labels.Some? then d.metadata.value.labels.value else map[]
  }

  /** `resource.spec?.selector || {}` */
  function SelectorOf(d: Doc): map<string, string>
  {
    if d.spec.Some? && d.spec.value.selector.Some? then d.spec.value.selector.value else map[]
  }

  /** `resource.spec?.replicas || 1`: a missing count and a count of 0 both read as 1. */
  function Replicas(d: Doc): (r: int)
    ensures d.spec.Some? && d.spec.value.replicas.Some? && d.spec.value.replicas.value != 0 ==>
              r == d.spec.value.replicas.value
    ensures d.spec.None? || d.spec.value.replicas.None? || d.spec.value.replicas.value == 0 ==> r == 1
    ensures r != 0
  {
    if d.spec.Some? && d.spec.value.replicas.Some? && d.spec.value.replicas.value != 0
    then d.spec.value.replicas.value
    else 1
  }

  /** `resource.spec?.template?.spec` */
  function PodSpecOf(d: Doc): Option<PodSpec>
  {
    if d.spec.Some? && d.spec.value.template.Some? then d.spec.value.template.value.spec else None
  }

  /** `template?.spec?.containers || []` */
  function ContainersOf(d: Doc): seq<Container>
  {
    var p := PodSpecOf(d);
    if p.Some? && p.value.containers.Some? then p.value.containers.value else []
  }

  /** `template?.spec?.volumes || []` */
  function VolumesOf(d: Doc): seq<Volume>
  {
    var p := PodSpecOf(d);
    if p.Some? && p.value.volumes.Some? then p.value.volumes.value else []
  }

  /** `template?.spec?.serviceAccountName`, kept raw; the builder tests it for truthiness. */
  function ServiceAccountOf(d: Doc): Option<string>
  {
    var p := PodSpecOf(d);
    if p.Some? then p.value.serviceAccountName else None
  }

  /** A string field is truthy when it is present and not empty. */
  predicate Truthy(x: Option<string>)
  {
    x.Some? && x.value != ""
  }
}
