/**
 * The static visual-attribute tables: a display colour and a node size per
 * resource kind, with a grey colour and size 50 for every kind the tables do
 * not list. The colour table lists twelve kinds and the size table nine of
 * them. `Colors` and `Sizes` are the tables as written; `Color` and `Size`
 * look a kind up entry by entry and are proved to agree with them.
 */
module Visual {

  const DefaultColor: string := "#94A3B8"
  const DefaultSize: int := 50

  /** The `colors` table of `getColorForKind`. */
  function Colors(): map<string, string>
  {
    map[
      "Deployment" := "#326CE5",
      "Pod" := "#00B4D8",
      "Container" := "#90E0EF",
      "Service" := "#48CAE4",
      "ServiceAccount" := "#FFC300",
      "ConfigMap" := "#FF5733",
      "Secret" := "#C70039",
      "StatefulSet" := "#9D4EDD",
      "DaemonSet" := "#10B981",
      "Ingress" := "#3B82F6",
      "PersistentVolumeClaim" := "#F59E0B",
      "Namespace" := "#8B5CF6"
    ]
  }

  /** The `sizes` table of `getSizeForKind`. */
  function Sizes(): map<string, int>
  {
    map[
      "Deployment" := 60,
      "StatefulSet" := 60,
      "DaemonSet" := 60,
      "Service" := 55,
      "Pod" := 40,
      "Container" := 30,
      "ServiceAccount" := 50,
      "ConfigMap" := 45,
      "Secret" := 45
    ]
  }

  predicate IsHexDigit(c: char)
  {
    '0' <= c <= '9' || 'A' <= c <= 'F'
  }

  /** A CSS colour of the form `#RRGGBB` with upper-case hex digits. */
  predicate IsHexColor(c: string)
  {
    |c| == 7 && c[0] == '#' && forall i :: 1 <= i < 7 ==> IsHexDigit(c[i])
  }

  /** `getColorForKind`: every kind, listed or not, gets a well-formed colour. */
  function Color(kind: string): (c: string)
    ensures IsHexColor(c)
  {
    if kind == "Deployment" then "#326CE5"
    else if kind == "Pod" then "#00B4D8"
    else if kind == "Container" then "#90E0EF"
    else if kind == "Service" then "#48CAE4"
    else if kind == "ServiceAccount" then "#FFC300"
    else if kind == "ConfigMap" then "#FF5733"
    else if kind == "Secret" then "#C70039"
    else if kind == "StatefulSet" then "#9D4EDD"
    else if kind == "DaemonSet" then "#10B981"
    else if kind == "Ingress" then "#3B82F6"
    else if kind == "PersistentVolumeClaim" then "#F59E0B"
    else if kind == "Namespace" then "#8B5CF6"
    else DefaultColor
  }

  /** `getSizeForKind`: every size lies between the container size and the workload size. */
  function Size(kind: string): (s: int)
    ensures 30 <= s <= 60
  {
    if kind == "Deployment" || kind == "StatefulSet" || kind == "DaemonSet" then 60
    else if kind == "Service" then 55
    else if kind == "Pod" then 40
    else if kind == "Container" then 30
    else if kind == "ServiceAccount" then 50
    else if kind == "ConfigMap" || kind == "Secret" then 45
    else DefaultSize
  }

  /** `colors[kind] || '#94A3B8'`: the table entry of a listed kind, the default for any other. */
  lemma ColorFromTable(kind: string)
    ensures Color(kind) == if kind in Colors() then Colors()[kind] else DefaultColor
    ensures kind in Colors() <==> Color(kind) != DefaultColor
  {
  }

  /** `sizes[kind] || 50`: the table entry of a listed kind, the default for any other. */
  lemma SizeFromTable(kind: string)
    ensures Size(kind) == if kind in Sizes() then Sizes()[kind] else DefaultSize
  {
  }

  /** A kind that is not in the colour table is unknown to both tables and gets both defaults. */
  lemma UnknownKindDefaults(kind: string)
    requires kind !in Colors()
    ensures Color(kind) == DefaultColor && Size(kind) == DefaultSize
  {
  }

  /** The three workload kinds are drawn at the largest size, each in its own colour. */
  lemma WorkloadKindsLargest(kind: string)
    requires kind == "Deployment" || kind == "StatefulSet" || kind == "DaemonSet"
    ensures Size(kind) == 60
    ensures forall other :: Size(other) <= Size(kind)
    ensures forall other :: Color(other) == Color(kind) ==> other == kind
  {
  }
}
