# Kubernetes resource graph, modelled in Dafny

This project models the core of the k8s-resource-visualizer web page (`app.js`).
The page turns the Kubernetes objects found in pasted or uploaded YAML into a
graph, in four steps:

- **Document filter** (`parseKubernetesYAML`). Of the documents the YAML parser
  returns, it keeps those with a truthy `kind` and a truthy `metadata`, in their
  original order.
- **Graph builder** (`buildGraph`, without the Cytoscape calls). It fills a
  node map keyed by id and an ordered edge list:
  - every object gets a self node `{kind}/{namespace}/{name}`;
  - a Deployment, StatefulSet or DaemonSet gets up to five Pod nodes. Each Pod
    has a "manages" edge from its owner, Container nodes with "contains" edges,
    a "uses" edge to its service account, and "mounts" edges to config maps and
    secrets. An overflow marker stands in for the replicas beyond five;
  - a Service gets a "routes to" edge to every workload whose labels its
    selector selects.
- **Visual attributes** (`getColorForKind`, `getSizeForKind`). These are table
  lookups with defaults.
- **Kind-count summary** (`updateResourceCount`). It counts objects per kind
  and sorts the entries the way the default array sort does.

Modules, one per file:

| file | module | contents |
|---|---|---|
| `kube_objects.dfy` | `KubeObjects` | The parsed document as optional fields, plus one accessor per default-substitution point. These cover `?.`, `|| default`, and interpolation of a missing value as `undefined`. |
| `decimal.dfy` | `Decimal` | How `${n}` prints a non-negative integer. |
| `visual.dfy` | `Visual` | The colour and size tables. |
| `document_filter.dfy` | `DocumentFilter` | The filter as a function, and the filter loop as a method proved equal to it. |
| `node_ids.dfy` | `NodeIds` | The id schemes and the facts about which ids coincide. |
| `graph_spec.dfy` | `GraphSpec` | What the builder computes, as functions: the node map folds its updates, later writes replacing earlier ones, and the edge list is the concatenation of what each loop pushes. |
| `graph_builder.dfy` | `GraphBuilder` | The builder's loops as methods that update a map and a sequence step by step, each proved equal to its `GraphSpec` function. |
| `edge_facts.dfy` | `EdgeFacts` | What the edge list contains, split up by edge label. |
| `node_facts.dfy` | `NodeFacts` | Which ids the node map holds, and the value each holds. |
| `text_order.dfy` | `TextOrder` | The string order of the default array sort. |
| `resource_count.dfy` | `ResourceCount` | The counting loop, the sort, and what the summary states. |

The edge and node field that `app.js` calls `label` is called `caption` here,
because `label` is a Dafny keyword.

Where the code differs from what a reader of its comments and documentation
would expect, the model follows the code:

- `replicas || 1` makes both a missing count and 0 expand one replica. A
  negative count expands no replica at all, because the loop bound is
  `Math.min(replicas, 5)`.
- The ServiceAccount, ConfigMap and Secret ids that "uses" and "mounts" edges
  point to are never inserted as nodes. They are nodes only when an accepted
  object declares that very id (`NodeFacts.ReferencedOnlyIfDeclared`).
- A routing target id uses the workload's raw `metadata.name`, not the
  `'unnamed'` default. A workload without a name is routed to `.../undefined`,
  and one with an empty name to `.../`, neither of which is its node id
  (`EdgeFacts.RouteTargetIsSelfIdIff`).
- The filter asks only that `metadata` be truthy, not that it be a mapping.
  The model's `Doc` carries `metadata` as an optional record.
- The default sort compares the entries `[kind, count]` as the texts
  `kind,count`, not by kind alone. This is the same as ordering by kind only
  when no kind contains a character that sorts at or below `,`
  (`ResourceCount.SummaryByKind`).

## Model

| member | source | states |
|---|---|---|
| KubeObjects.StringOr | app.js:121-122 | `x || fallback` on a string gives the value when it is present and non-empty, and the fallback otherwise. The result is never empty when the fallback is not. |
| KubeObjects.NameOf | app.js:121 | `metadata?.name || 'unnamed'` is the name when it is present and non-empty, and `unnamed` otherwise; never empty. |
| KubeObjects.NamespaceOf | app.js:122 | `metadata?.namespace || 'default'` is the namespace when it is present and non-empty, and `default` otherwise; never empty. |
| KubeObjects.Replicas | app.js:136 | `spec?.replicas || 1` keeps a present non-zero count; a missing count and 0 both read as 1. |
| Decimal.NatToString | app.js:141 | `${i}` of a non-negative integer is a non-empty run of decimal digits without a leading zero (except for 0 itself), one digit exactly for values below 10. |
| Decimal.NumeralRoundTrip | app.js:141 | Reading the printed numeral back gives the number. |
| Decimal.NatToStringInjective | app.js:141 | Different numbers print differently. |
| Visual.Color | app.js:276-293 | Every kind gets a well-formed `#RRGGBB` colour. |
| Visual.Size | app.js:296-310 | Every size is between 30 and 60. |
| Visual.ColorFromTable | app.js:276-293 | A listed kind gets its table entry and any other kind gets `#94A3B8`, so a kind gets the default exactly when it is not in the table. |
| Visual.SizeFromTable | app.js:296-310 | A listed kind gets its table entry and any other kind gets 50. |
| Visual.UnknownKindDefaults | app.js:276-310 | A kind missing from the colour table gets both defaults, `#94A3B8` and 50. |
| Visual.WorkloadKindsLargest | app.js:276-310 | Deployment, StatefulSet and DaemonSet are drawn at the largest size, 60, and no other kind shares the colour of any of them. |
| DocumentFilter.Filter | app.js:101-107 | The filter never returns more documents than it was given. |
| DocumentFilter.ParseKubernetesYaml | app.js:97-108 | The filter loop returns exactly `Filter(docs)`. |
| DocumentFilter.FilterMembership | app.js:101-105 | A document is in the output exactly when the parser returned it and it has a truthy kind and a metadata. |
| DocumentFilter.FilterOutputWellShaped | app.js:101-105 | Every output document has a non-empty kind and a metadata. |
| DocumentFilter.FilterAppend | app.js:101-107 | Filtering distributes over concatenation, so the original order is kept. |
| DocumentFilter.FilterIdempotent | app.js:101-107 | Filtering the output again changes nothing. |
| NodeIds.SelfIdDistinguishes | app.js:120-123 | Two objects that agree on two of kind, namespace and name get the same self id exactly when they agree on the third. Objects that differ only in namespace are different nodes, and same kind, namespace and name collapse into one. |
| NodeIds.NamespaceFromSelfId | app.js:120-123 | Equal self ids of the same kind and name mean equal namespaces. |
| NodeIds.NameFromSelfId | app.js:120-123 | Equal self ids of the same kind and namespace mean equal names. |
| NodeIds.KindFromSelfId | app.js:120-123 | Equal self ids with the same namespace and name mean equal kinds. |
| NodeIds.PodIdInjective | app.js:141 | The replicas of one owner have pairwise different Pod ids. |
| NodeIds.WorkloadIdsDisjoint | app.js:123-209 | Within one workload, the self, Pod, Container and overflow ids never coincide. |
| GraphSpec.PodCount | app.js:140 | The replica loop runs at most 5 times. |
| GraphSpec.PodCountOfReplicas | app.js:136-140 | A missing `replicas` and 0 expand one replica. A negative count expands none, and a count `r` otherwise expands min(r, 5). The overflow marker appears exactly when r > 5, and its label then uses the raw count r. |
| GraphBuilder.AddContainers | app.js:157-173 | The container loop inserts exactly the Container nodes of `ContainerNodes` and appends exactly `ContainerEdges`. |
| GraphBuilder.AddMounts | app.js:187-205 | The volume loop appends exactly `MountEdges`: a configMap edge, then a secret edge, per volume. |
| GraphBuilder.AddPod | app.js:141-205 | One replica iteration inserts its Pod node and then its containers, and appends exactly `PodEdges`: manages, contains, uses, mounts. |
| GraphBuilder.AddPods | app.js:140-206 | The replica loop produces `PodNodes` and `PodsEdges` over PodCount replicas. |
| GraphBuilder.AddWorkload | app.js:135-223 | The workload branch produces `WorkloadNodes` and `WorkloadEdges`, with the overflow node and edge when replicas > 5. |
| GraphBuilder.AddRoutes | app.js:226-245 | The Service branch appends exactly `RouteEdges` over all objects. |
| GraphBuilder.AddResource | app.js:119-246 | One callback inserts the self node and then the workload or Service part, giving `ResourceNodes` and appending `ResourceEdges`. |
| GraphBuilder.BuildGraph | app.js:111-256 | The builder's node map and edge list are exactly `Build(resources)`. |
| EdgeFacts.MountEdgesShape | app.js:187-205 | The "mounts" edges of a replica all leave its Pod. There is one per volume with a configMap plus one per volume with a secret, so a volume with both yields two. |
| EdgeFacts.ContainerEdgesShape | app.js:158-172 | Every "contains" edge of a replica leaves that replica's Pod. |
| EdgeFacts.PodEdgesByCaption | app.js:150-205 | The edges of one replica, per label: one "manages" edge, one "contains" per container entry, "uses" only when the service account is truthy, and its "mounts" edges. |
| EdgeFacts.ManagesEdges | app.js:150-154 | The "manages" edges of n replicas are n edges. |
| EdgeFacts.ManagesEdgesAt | app.js:140-154 | The i-th of them runs from the owner to Pod i. |
| EdgeFacts.ManagesEdgesMembership | app.js:150-154 | A "manages" edge is among them exactly when it targets one of the first n replicas. |
| EdgeFacts.PodEdgesCount | app.js:150-205 | A replica contributes `PerPod(d, label)` edges of each label. |
| EdgeFacts.PodsEdgesCount | app.js:140-206 | n replicas contribute n times `PerPod(d, label)` edges of each label. |
| EdgeFacts.PodsManages | app.js:140-154 | The "manages" edges of the replica loop run from the owner to each replica once, in replica order. |
| EdgeFacts.PodsUses | app.js:140-184 | n replicas have n "uses" edges when the service account is truthy, and none otherwise. |
| EdgeFacts.PodsEdgesOtherLabels | app.js:140-206 | The replica loop pushes no edge with a label other than "manages", "contains", "uses" and "mounts". |
| EdgeFacts.WorkloadCaptioned | app.js:208-222 | The workload's edges with a label are those of its replicas, plus the overflow edge for the empty label. |
| EdgeFacts.ResourceCaptioned | app.js:135-245 | An object's edges with a label are its workload edges, plus its routing edges for "routes to". |
| EdgeFacts.ReplicaLabelCount | app.js:140-206 | For replica labels, an object contributes PodCount times `PerPod` edges if it is a workload, and none otherwise. |
| EdgeFacts.ResourceManages | app.js:135-154 | A workload contributes exactly PodCount "manages" edges from its own node, in replica order. Any other object contributes none. |
| EdgeFacts.ResourceContains | app.js:135-173 | A workload has PodCount times its container entries "contains" edges. Any other object has none. |
| EdgeFacts.ResourceUses | app.js:135-184 | A workload has PodCount "uses" edges when its service account is truthy, and none otherwise. Any other object has none. |
| EdgeFacts.ResourceMounts | app.js:135-206 | A workload has PodCount times its configMap and secret references "mounts" edges. Any other object has none. |
| EdgeFacts.ResourceOverflow | app.js:135-222 | The one unlabelled edge of an object is a workload's overflow edge, present exactly when replicas > 5. |
| EdgeFacts.ResourceRoutes | app.js:135-245 | "routes to" edges come only from a Service, and they are all of its routing edges. |
| EdgeFacts.PodEdgesSources | app.js:150-205 | Every edge one replica pushes leaves the owner or that replica's Pod. |
| EdgeFacts.PodsEdgesSources | app.js:150-205 | Every replica edge leaves the owner or one of its first n Pods. |
| EdgeFacts.OverflowNotExpanded | app.js:208-222 | No edge of a workload leaves its overflow marker: it gets no container, uses or mounts edges. |
| EdgeFacts.RouteEdgesShape | app.js:237-241 | Every routing edge leaves the Service and carries "routes to". |
| EdgeFacts.RouteEdgesIff | app.js:230-244 | A Service routes to a target exactly when some workload among the objects has that routing id and the selector selects its labels. Other kinds are never targets. |
| EdgeFacts.EmptySelectorRoutesNowhere | app.js:227-235 | A Service with an empty or missing selector has no routing edges. |
| EdgeFacts.ExtraLabelsIgnored | app.js:233-235 | Labels beyond those the selector names never prevent a match. |
| EdgeFacts.RouteTargetIsSelfIdIff | app.js:236 | The routing target equals the workload's node id exactly when the workload has a non-empty `metadata.name`. |
| EdgeFacts.EdgesMembership | app.js:119-246 | An edge is in the list exactly when some object contributed it. |
| EdgeFacts.RoutesInGraph | app.js:226-245 | Over the whole graph, a "routes to" edge is present exactly when some Service selects the labels of some workload. The edge runs from the Service's id to that workload's routing id. |
| EdgeFacts.ManagesInGraph | app.js:140-154 | Over the whole graph, a "manages" edge is present exactly when it runs from a workload to one of its first PodCount replicas. |
| NodeFacts.ContainerNodesKeys | app.js:157-166 | The container loop adds exactly the Container ids of the entries seen, and removes nothing. |
| NodeFacts.PodNodesReplica | app.js:140-173 | After n replicas the node map holds the ids it held before plus those of the replicas seen. |
| NodeFacts.ReplicaAmongIff | app.js:140-173 | Belonging to one of the first n replicas means there is an index below n whose replica has the id. |
| NodeFacts.PodNodesKeys | app.js:140-173 | The replica loop adds exactly the Pod and Container ids of the replicas seen. |
| NodeFacts.ResourceNodesKeys | app.js:119-222 | Processing an object adds exactly its own ids: its self id, plus for a workload its Pod, Container and overflow ids. |
| NodeFacts.NodesOwned | app.js:111-246 | An id is a key of the node map after k objects exactly when one of those objects owns it: `nodes.set` never removes a key. |
| NodeFacts.OwnedAmongIff | app.js:111-246 | Being owned by one of the first k objects means there is an index below k whose object has the id among its own ids. |
| NodeFacts.NodesKeys | app.js:119-246 | An id is a key of the node map exactly when some object inserted it. |
| NodeFacts.SelfNodesPresent | app.js:126-132 | Every accepted object's self id is a node of the graph. |
| NodeFacts.ReplicaIdsCount | app.js:140-141 | The first n replicas have n distinct Pod ids. |
| NodeFacts.ReplicaIdsStep | app.js:140-141 | Each further replica adds a Pod id that no earlier replica has. |
| NodeFacts.OwnPodKeys | app.js:140-148 | A workload's own ids starting with "Pod/" are exactly the Pod ids of its first PodCount replicas, and there are PodCount of them. |
| NodeFacts.OverflowKey | app.js:208-216 | A workload's overflow id is one of its own ids exactly when replicas > 5. |
| NodeFacts.ContainerNodesKeep | app.js:157-166 | The container loop leaves every id outside the "Container/" scheme unchanged. |
| NodeFacts.PodNodesKeep | app.js:140-173 | The replica loop leaves every id outside the Pod and Container schemes unchanged. |
| NodeFacts.PodNodesValues | app.js:140-148 | After the loop, each Pod id holds that replica's Pod node. |
| NodeFacts.ResourceNodesValues | app.js:126-216 | Once an object is processed, its self id holds its self node, each Pod id its Pod node, and the overflow id the overflow marker `... +{r-5} more pods`. This holds whatever the map held before. |
| NodeFacts.OverflowMarkerReplaced | app.js:209-216 | Ids are not unique across objects. The overflow marker of a Deployment `x` with 7 replicas has the id of a Deployment `x-more` in the same namespace. When `x-more` comes later, its node replaces the marker. |
| NodeFacts.ReferenceTargets | app.js:176-205 | "uses" and "mounts" edges point to ServiceAccount/, ConfigMap/ and Secret/ ids. |
| NodeFacts.SynthesisedNotReference | app.js:140-216 | No Pod, Container or overflow id is a ServiceAccount/, ConfigMap/ or Secret/ id. |
| NodeFacts.ReferencedOnlyIfDeclared | app.js:176-205 | Such an id is a node exactly when some accepted object declares it as its own self id. The builder never inserts it. |
| TextOrder.BelowIrreflexive | app.js:324 | No string sorts before itself. |
| TextOrder.BelowTransitive | app.js:324 | The sort order is transitive. |
| TextOrder.BelowTotal | app.js:324 | Any two different strings are ordered. |
| TextOrder.BelowAsymmetric | app.js:324 | Two strings are never ordered both ways. |
| TextOrder.AtMostTransitive | app.js:324 | The non-strict order is transitive. |
| TextOrder.BelowKeptBySeparator | app.js:324 | Appending `,` and a tail to two kinds whose characters all sort after `,` keeps their order. |
| ResourceCount.FirstSeen | app.js:316-319 | The dictionary's keys are exactly the kinds that occur, without repetition. |
| ResourceCount.Tally | app.js:316-319 | Each listed kind is paired with its number of occurrences. |
| ResourceCount.EntryTextInjective | app.js:324 | An entry is determined by its sort text `kind,count`. |
| ResourceCount.Insert | app.js:324 | Insertion adds exactly one entry: a permutation plus that entry. |
| ResourceCount.InsertSum | app.js:324 | Insertion adds the entry's count to the sum. |
| ResourceCount.InsertSorted | app.js:324 | Insertion keeps the entries sorted. |
| ResourceCount.InsertStrict | app.js:324 | Inserting an entry with a new kind keeps the entries strictly sorted. |
| ResourceCount.SortEntries | app.js:324 | The sort is a permutation of the entries. |
| ResourceCount.SortSum | app.js:324 | The sort keeps the sum of the counts. |
| ResourceCount.SortSorted | app.js:324 | The sort output is ordered by sort text, strictly when the kinds are distinct. |
| ResourceCount.UpdateResourceCount | app.js:313-324 | The counting loop and the sort give exactly `Summary(resources)`. |
| ResourceCount.TallyTotal | app.js:316-319 | The counts over distinct kinds that include every kind present add up to the number of objects. |
| ResourceCount.EntriesCounts | app.js:316-324 | An entry is present exactly when its kind occurs and its count is that kind's number of occurrences. |
| ResourceCount.SummaryMembership | app.js:313-324 | The summary has one entry per kind present, with the number of accepted objects of that kind. Objects the builder synthesises are not counted. |
| ResourceCount.SummaryTotal | app.js:313-324 | The displayed counts sum to the number of accepted objects. |
| ResourceCount.SummarySorted | app.js:313-324 | The entries are strictly increasing by their `kind,count` sort text. |
| ResourceCount.OccurrencesWitness | app.js:316-319 | A kind with a positive count is the kind of some object. |
| ResourceCount.SummaryByKind | app.js:324 | When no kind has a character sorting at or below `,`, the entries are strictly increasing by kind. |
| KubeObjects.Interpolated | app.js:159 | Definition: `${x}` of a missing value is the text `undefined`. |
| KubeObjects.LabelsOf | app.js:232 | Definition: `metadata?.labels || {}`. |
| KubeObjects.SelectorOf | app.js:227 | Definition: `spec?.selector || {}`. |
| KubeObjects.ContainersOf | app.js:157 | Definition: `template?.spec?.containers || []`. |
| KubeObjects.VolumesOf | app.js:187 | Definition: `template?.spec?.volumes || []`. |
| KubeObjects.ServiceAccountOf | app.js:176 | Definition: `template?.spec?.serviceAccountName`. |
| DocumentFilter.Accepted | app.js:102 | Definition: a document is kept when it is a mapping with a truthy `kind` and `metadata`. |
| NodeIds.SelfId | app.js:123 | Definition: `${kind}/${namespace}/${name}`. |
| NodeIds.PodId | app.js:141 | Definition: `Pod/${namespace}/${name}-pod-${i}`. |
| NodeIds.ContainerId | app.js:159 | Definition: `Container/${namespace}/${name}-pod-${i}-${container.name}`. |
| NodeIds.ServiceAccountId | app.js:178 | Definition: `ServiceAccount/${namespace}/${serviceAccountName}`. |
| NodeIds.ConfigMapId | app.js:190 | Definition: `ConfigMap/${namespace}/${volume.configMap.name}`. |
| NodeIds.SecretId | app.js:198 | Definition: `Secret/${namespace}/${volume.secret.secretName}`. |
| NodeIds.MoreId | app.js:209 | Definition: `${nodeId}-more`. |
| NodeIds.RouteTargetId | app.js:236 | Definition: the routed workload's kind, its namespace or `default`, and its raw `metadata?.name`, interpolated. |
| GraphSpec.SelfNode | app.js:126-132 | Definition: the object's own node, labelled kind and name, with the colour and size of its kind. |
| GraphSpec.PodNode | app.js:142-148 | Definition: the node of replica i, labelled `Pod` and `name-i`, size 40. |
| GraphSpec.ContainerNode | app.js:160-166 | Definition: the node of one container of one replica, size 30. |
| GraphSpec.MoreNode | app.js:210-216 | Definition: the overflow marker `... +${replicas - 5} more pods`, colour `#cbd5e1`, size 35. |
| GraphSpec.UsesEdges | app.js:176-184 | Definition: one "uses" edge from the Pod to its service account when `serviceAccountName` is truthy, none otherwise. |
| GraphSpec.VolumeEdges | app.js:189-204 | Definition: a configMap "mounts" edge, then a secret "mounts" edge, each present when that part of the volume is. |
| GraphSpec.SelectorMatches | app.js:233 | Definition: every selector key maps to the same value in the labels. |
| GraphSpec.Selects | app.js:233-235 | Definition: the selector matches and is non-empty. |
| GraphSpec.RoutesTo | app.js:231-235 | Definition: the other object is a workload whose labels the Service's selector selects. |
| GraphSpec.Build | app.js:111-256 | Definition: the node map and edge list after every accepted object has been processed in order. |
| TextOrder.Below | app.js:324 | Definition: the order `Array.prototype.sort` uses without a comparator, code point by code point with a proper prefix first. |
| ResourceCount.EntryText | app.js:324 | Definition: the text an entry `[kind, count]` converts to for that sort, `kind,count`. |
| ResourceCount.Occurrences | app.js:316-319 | Definition: how many of the resources have the given kind. |
| KubeObjects.Truthy | app.js:177 | Definition: a string field is truthy when it is present and not empty. |
| KubeObjects.KindText | app.js:120-123 | Definition: `resource.kind` as interpolated into ids and labels, `undefined` when missing. |
| KubeObjects.MetaName | app.js:121 | Definition: `metadata?.name`, missing when there is no metadata. |
| KubeObjects.MetaNamespace | app.js:122 | Definition: `metadata?.namespace`, missing when there is no metadata. |
| KubeObjects.PodSpecOf | app.js:157 | Definition: `template?.spec`, with `template` read as `spec?.template`. |
| NodeIds.PodName | app.js:141 | Definition: `${name}-pod-${i}`, the part of the Pod id after the namespace. |
| NodeIds.IsWorkloadKind | app.js:135 | Definition: the kind is `Deployment`, `StatefulSet` or `DaemonSet`. |
| GraphSpec.IsWorkload | app.js:135 | Definition: the object's kind is a workload kind. |
| GraphSpec.IsService | app.js:226 | Definition: the object's kind is `Service`. |
| GraphSpec.HasOverflow | app.js:208 | Definition: `replicas > 5`, after the `|| 1` default. |
| GraphSpec.ManagesEdge | app.js:150-154 | Definition: the "manages" edge from the object to Pod i. |
| GraphSpec.OverflowEdges | app.js:217-221 | Definition: one edge with an empty label from the object to its overflow marker when replicas > 5, none otherwise. |
| GraphSpec.RouteEdge | app.js:237-241 | Definition: the "routes to" edge from the Service to the routing target id of the other object. |
| GraphSpec.Nodes | app.js:119-246 | Definition: the node map after the outer `resources.forEach` has processed the first k objects, later writes winning. |
| GraphSpec.Edges | app.js:119-246 | Definition: the edges pushed while the outer `resources.forEach` processes the first k objects, in order. |
| Visual.Colors | app.js:277-290 | Definition: the colour table, twelve kinds. |
| Visual.Sizes | app.js:297-307 | Definition: the size table, nine kinds. |
| ResourceCount.Entries | app.js:324 | Definition: `Object.entries(counts)`, one `[kind, count]` entry per kind in first-seen order. |
| ResourceCount.Summary | app.js:313-324 | Definition: those entries in the order the default sort leaves them, which is the displayed order. |

## Left out

- The YAML parser `jsyaml.loadAll` (app.js:98) is a foreign library. Its output is the input sequence `docs`, where `None` stands for an empty or non-mapping document.
- The Cytoscape renderer and the DOM are not modelled. This covers `initializeCytoscape`, removing elements, `cy.add`, layout and fit, the badges of the summary and `showMessage` (app.js:14-67, 112, 248-272, 321-342). Of lines 321-329 only the sort at app.js:324 is modelled.
- The share link (app.js:345-384) is not modelled. It depends on `btoa`/`atob`, the clipboard and `window.location`.
- The file upload (app.js:396-429) is not modelled. It depends on asynchronous `FileReader` callbacks.
- The `visualize` and `clearAll` glue (app.js:70-94, 387-393) is not modelled. It works on the global `resources` and `cy`.
- GraphBuilder.BuildGraph: the node map is a Dafny `map`, so the order in which the JavaScript `Map` hands nodes to the renderer is not modelled. That order is the first-insertion order of each id. Only the final id-to-node association is kept.
- JavaScript values of other types are not modelled. `kind`, names, label and selector values are strings. `replicas` is an integer, so fractional and non-numeric counts and their coercions are outside the model. A `kind` of another type is outside the model too.
- GraphBuilder.BuildGraph: a `null` entry in `containers` or `volumes` (a YAML `-` with no value), or a truthy `containers` or `volumes` that is not an array, makes `buildGraph` throw a TypeError at app.js:158-159 or 188-189. The throw leaves the graph half built after `cy.elements().remove()`, and `visualize` reports it as "Error parsing YAML" (app.js:89-92). Container and volume lists in the model are sequences of well-formed entries, so the model always returns a graph.
- GraphSpec.MoreNode: `replicas - 5` in the overflow label (app.js:212) is floating-point arithmetic in JavaScript. Above 2^53 its text can differ from the exact integer difference the model prints.
- Decimal.NatToString: the exponent notation JavaScript uses for integers of 10^21 and more is not modelled. Every count is printed in plain digits.
- Visual.Color: a kind equal to a property inherited from `Object.prototype`, such as `constructor` or `toString`, returns that inherited value in JavaScript. The model uses the default instead. The same holds for Visual.Size and for the `counts` dictionary.
- ResourceCount.UpdateResourceCount: `Object.entries` lists integer-like keys before the others. The model keeps first-insertion order instead. This does not affect the displayed order, which is fixed by the sort.
- TextOrder.Below: JavaScript compares UTF-16 code units. The model compares Unicode scalar values. The two orders differ only for characters outside the Basic Multilingual Plane.
