# gok8s core: selection pipeline and deployment building, in Dafny

gok8s is a small Go backend that serves Kubernetes Pods and Deployments over HTTP. This project
models its core:

- **The selection pipeline** (`service/dataselector.go`). A `dataSelector` holds a list of cells.
  A cell is an object together with the name and creation time it reports. `Filter` keeps the cells
  whose name contains a substring. `Sort` orders them newest first. `Paginate` cuts out one page.
  Each method changes the selector's list in place.
- **The pod service** (`service/pod.go`). `GetPods` runs Filter, then counts, then runs Sort and
  Paginate. The file also has `toCells`/`fromCells`, the container names of a pod
  (`GetPodContainer`) and the pod count of every namespace (`GetPodNumPerNp`).
- **The deployment service** (`service/deployment.go`). It has the same listing pipeline
  (`GetDeployment`), the Deployment built from a `DeployCreate` request (`CreateDeployment`), the
  strategic-merge patch that restarts a deployment (`RestartDeployment`), the scale update
  (`ScaleDeployment`) and the deployment count of every namespace (`GetDeployNumPerNp`).

Modules, one per file:

- `Results` (`results.dfy`): `Option` and `Result`.
- `KubeTypes` (`kube_types.dfy`): the Kubernetes API fields the services touch, Go's `int32`, and
  the `int32(x)` conversion.
- `GoStrings` (`go_strings.dfy`): `strings.Contains`, and `strconv.FormatInt` with a decimal
  parser as its inverse.
- `DataSelect` (`data_selector.dfy`): cells, queries, and the specification functions for
  filtering, ordering and paging. It also holds the class `DataSelector`, whose `Filter`, `Sort`
  and `Paginate` methods are proved against those functions. `Len`, `Less` and `Swap` are the
  `sort.Interface` through which `Sort` permutes the list.
- `PodService` (`pod_service.dfy`) and `DeploymentService` (`deployment_service.dfy`).

Cluster calls become inputs. A single fetch is a `Result` whose error is the client's message. A
per-namespace listing is a function from namespace name to such a `Result`. A write is a function
from the request sent to the error it provokes, if any. Creation times are integers. The time of a
restart is a parameter. Go's panic in the page slice becomes an outcome: `Paginate` returns
`false` and leaves the list alone, and the services report `SliceOutOfRange`. At run time gin's
recovery middleware turns that panic into an HTTP 500.

## Model

| member | source | states |
|---|---|---|
| `DataSelect.PodCell` | service/dataselector.go:123-129 | a pod's cell reports the pod's own name and creation timestamp and wraps the pod unchanged |
| `DataSelect.DeploymentCell` | service/dataselector.go:133-139 | a deployment's cell reports the deployment's own name and creation timestamp and wraps it unchanged |
| `DataSelect.DataSelector.constructor` | service/pod.go:42-51 | the selector starts with the given cells and query |
| `DataSelect.DataSelector.Len` | service/dataselector.go:43-45 | the length Sort sees is the number of cells in the list, never negative |
| `DataSelect.DataSelector.Less` | service/dataselector.go:53-58 | cell i sorts before cell j exactly when j was created strictly before i (`b.Before(a)`), so Less is irreflexive and never holds both ways |
| `DataSelect.DataSelector.Swap` | service/dataselector.go:48-50 | exchanges cells i and j; the list stays a permutation and the query is untouched |
| `DataSelect.DataSelector.Sort` | service/dataselector.go:53-64 | afterwards creation times never increase along the list, newest first, since `Less(i,j)` is "j was created before i"; the list is a permutation of the old one; no stability is promised |
| `DataSelect.DataSelector.Filter` | service/dataselector.go:67-92 | the new list is `Filtered(old list, name)`: unchanged for an empty name, otherwise the matching cells in their old order |
| `DataSelect.DataSelector.Paginate` | service/dataselector.go:95-115 | succeeds exactly when the slice is in range, and then the list is `Paginated(old list, limit, page)`; on a panic the list is left unchanged |
| `DataSelect.Paginated` | service/dataselector.go:95-115 | with limit <= 0 or page <= 0 the list comes back whole; the result is missing exactly when the slice `[limit*(page-1) : end]` panics |
| `DataSelect.PaginatedWindow` | service/dataselector.go:105-112 | a page that does not panic is the contiguous run from `limit*(page-1)` to the clamped `limit*page-1`, and holds at most limit-1 cells |
| `DataSelect.PagePanicsIff` | service/dataselector.go:105-112 | the slice panics exactly when the page starts at or past the end of the list, except for a one-item page that starts exactly at the end |
| `DataSelect.PaginatedVsCorrected` | service/dataselector.go:106-112 | the page as written equals the intended page exactly when `limit*page-1` equals the length; otherwise it is the intended page minus its last cell |
| `DataSelect.PaginateDropsLastCell` | service/dataselector.go:106-112 | over three cells, page 1 of limit 3 shows only the first two; the corrected page shows all three |
| `DataSelect.PaginatePanicsPastEnd` | service/dataselector.go:108-112 | page 3 of limit 3 over five cells panics, and so does page 1 of limit 2 over no cells; the corrected page is empty in both |
| `DataSelect.CorrectedPageSize` | service/dataselector.go:105-112 | the corrected page holds `min(limit, len - start)` cells starting at `start`, and none when `start` is past the end |
| `DataSelect.CorrectedPagesTile` | service/dataselector.go:105-112 | the corrected pages 1..k, one after another, are exactly the first `min(k*limit, len)` cells, so every cell is on exactly one page |
| `DataSelect.KeepMatchingMembers` | service/dataselector.go:76-89 | a cell is kept exactly when it is in the input and its name contains the query name |
| `DataSelect.KeepMatchingIsSubsequence` | service/dataselector.go:76-89 | the kept cells are a subsequence of the input: nothing is added or reordered |
| `DataSelect.KeepMatchingCounts` | service/dataselector.go:76-89 | each matching cell is kept as many times as it occurs in the input, and every other cell is dropped |
| `DataSelect.FilterSpec` | service/dataselector.go:67-92 | Filter keeps exactly the matching cells, each as many times as it occurs, keeps their order, never grows the list, and applying it twice gives the same list as once |
| `DataSelect.EmptyNameKeepsAll` | service/dataselector.go:69-71 | every name contains "", so the early return for an empty name agrees with the filtering loop |
| `DataSelect.SelectionItemsMatch` | service/deployment.go:64-69 | every item of a selection is the object of an input cell whose name matches the filter, and there are at most `total` items |
| `GoStrings.ContainsIff` | service/dataselector.go:81 | `strings.Contains(s, sub)` holds exactly when `sub` occurs in `s` at some offset |
| `GoStrings.FormatIntRoundTrip` | service/deployment.go:238 | parsing the decimal text of `strconv.FormatInt(n, 10)` gives back n |
| `GoStrings.FormatInt` | service/deployment.go:238 | the text is non-empty, starts with '-' exactly for negative numbers, and the rest is decimal digits |
| `KubeTypes.Int32Of` | service/deployment.go:98 | `int32(x)` keeps values in range and otherwise wraps modulo 2^32 |
| `PodService.ToCells` | service/pod.go:152-159 | the loop fills cell i with the cell of pod i, for every i |
| `PodService.FromCells` | service/pod.go:187-195 | the loop fills pod i with the object of cell i, for every i |
| `PodService.UnwrapWrap` | service/pod.go:152-195 | unwrapping the cells of a pod list gives back the list, in order and of the same length |
| `PodService.WrapUnwrap` | service/pod.go:152-195 | re-wrapping the unwrapped cells gives back cells that podCell made |
| `PodService.GetPods` | service/pod.go:32-67 | a failed listing gives its wrapped error and no selection; otherwise `total` is the filtered count taken before Sort and Paginate, the items are a page of a newest-first ordering of the filtered pods, and each item is a listed pod whose name matches; a slice panic is reported exactly when the filtered count makes it panic, and a successful listing gives `Ok` exactly when it does not |
| `PodService.PodSelectionItems` | service/pod.go:53-61 | every pod of a selection is one of the listed pods, with a name that contains the filter |
| `PodService.GetDetail` | service/pod.go:70-77 | returns the fetched pod, or the client's error wrapped as a detail failure |
| `PodService.GetPodContainer` | service/pod.go:109-119 | one name per container, in the pod spec's order; a detail error is passed on unchanged |
| `PodService.GetPodNumPerNp` | service/pod.go:162-185 | one entry per namespace, in namespace-list order, holding that namespace's pod count; a namespace-list error, or the first failing pod listing, aborts with that error |
| `DeploymentService.ToCells` | service/deployment.go:306-312 | the loop fills cell i with the cell of deployment i, for every i |
| `DeploymentService.FromCells` | service/deployment.go:315-321 | the loop fills deployment i with the object of cell i, for every i |
| `DeploymentService.UnwrapWrap` | service/deployment.go:306-321 | unwrapping the cells of a deployment list gives back the list, in order and of the same length |
| `DeploymentService.WrapUnwrap` | service/deployment.go:306-321 | re-wrapping the unwrapped cells gives back cells that deploymentCell made |
| `DeploymentService.GetDeployment` | service/deployment.go:49-76 | a failed listing gives its wrapped error; otherwise `total` is the filtered count taken before Sort and Paginate, the items are a page of a newest-first ordering of the filtered deployments, and each item is a listed deployment whose name matches; a slice panic is reported exactly when the filtered count makes it panic, and a successful listing gives `Ok` exactly when it does not |
| `DeploymentService.DeploymentSelectionItems` | service/deployment.go:64-69 | every deployment of a selection is one of the listed ones, with a name that contains the filter |
| `DeploymentService.ScaleRequest` | service/deployment.go:97-98 | the scale written back is the fetched one with only its spec replicas replaced by `int32(scaleNum)` |
| `DeploymentService.ScaleDeployment` | service/deployment.go:89-108 | returns the replicas of the scale the cluster answers with, not the number asked for; a failure at either step gives 0 and that step's error |
| `DeploymentService.BuildDeployment` | service/deployment.go:114-203 | the result satisfies `BuiltFrom(d, data)`: name, namespace and labels come from the request; selector and template labels are both exactly the request's labels; one container named after the deployment with the request's image and a single TCP port named "http"; probes are present exactly when health checking is on; limits equal requests |
| `DeploymentService.BuiltFromUnique` | service/deployment.go:114-203 | the construction is deterministic: two Deployments built from one request are equal |
| `DeploymentService.BuiltProbesUseRequest` | service/deployment.go:155-193 | with health checking, both probes are HTTP GET on the request's path and integer port, and readiness starts before liveness (5s against 15s) |
| `DeploymentService.CreateDeployment` | service/deployment.go:112-212 | the object created, in the request's namespace, is the one `BuiltFrom` describes; a failed create returns its wrapped error |
| `DeploymentService.RestartPatch` | service/deployment.go:230-245 | the patch touches only `spec.template.spec.containers`, which holds one entry; that entry names the deployment and has the single env var `RESTART_`, whose value parses back to the restart time |
| `DeploymentService.RestartDeployment` | service/deployment.go:227-261 | sends the restart patch as a strategic merge patch on the named deployment; a failed patch returns its wrapped error |
| `DeploymentService.GetDeployNumPerNp` | service/deployment.go:283-303 | one entry per namespace, in namespace-list order, holding that namespace's deployment count; the first error aborts with that error |

## Left out

- The HTTP controllers, routing, request binding, JSON rendering, logging, kubeconfig loading and
  server start-up are out of scope. They are transport, not core logic.
- `GetDeploymentDetail`, `DeleteDeploy`, `UpdateDeployment`, `DeletePod` and `UpdatePod` are not
  modelled. Each is one client call plus error wrapping. The two updates also decode JSON with a
  library that is not part of this model.
- `GetPodLog` is not modelled: it streams the log and copies it into a buffer, which is I/O.
- The namespace argument of the listing calls is not modelled. The listing result for that
  namespace is passed in instead.
- `resource.MustParse` is not modelled. CPU and memory stay opaque strings, so the panic on a
  malformed quantity is not represented.
- The `json.Marshal` error branch in `RestartDeployment` is not modelled. The patch is a tree of
  strings, which always marshals, so the patch is kept as a tree and never turned into bytes.
- Error messages are constructors naming the failed step plus the client's message. The exact
  message prefixes are not kept.
- A nil slice and an empty slice are both the empty sequence.
- `GoStrings.Contains`: compares characters (code points), while Go's `strings.Contains` compares
  bytes. The two agree whenever both strings are valid UTF-8, which Kubernetes object names are.
- Go's 64-bit overflow of `limit*page` is not modelled, because integers here are unbounded.
  `int32(scaleNum)` is modelled exactly.
- `DataSelect.DataSelector.Sort`: the model sorts by insertion sort, not by Go's pattern-defeating
  quicksort. So the contract promises only what `sort.Sort` promises: newest first, and a
  permutation. Go's `sort.Sort` is not stable, so the model promises no order among cells with equal
  creation times.
- `DataSelect.DataSelector.Paginate`: the services use the pagination as written, with its
  off-by-one and its panics, so that they match the code. The corrected page exists only as the
  function `DataSelect.CorrectedPage`.
- A cell holds a copy of its object. This matches Go's conversion to `podCell`/`deploymentCell`,
  which copies the struct. Objects hold no references, so the pipeline's type parameter is
  `T(!new)`.
- Go's `DataSelect`, `Filter` and `Paginate` fields are pointers. The services never leave them
  nil, so the query is modelled as a value.

## Findings

| source | as written | input that shows it | evidently intended | confidence | as-written member | corrected member |
|---|---|---|---|---|---|---|
| service/dataselector.go:106-112 | `endIndex = limit*page - 1` is used as the exclusive end of the slice, so a page drops its last slot | 3 items, limit 3, page 1: items 0 and 1 only | pages of `limit` items that together cover the list | high; not executed | `DataSelect.PaginateDropsLastCell` | `DataSelect.CorrectedPagesTile` |
| service/dataselector.go:108-112 | when the page starts past the clamped end, `GenericDataList[startIndex:endIndex]` panics | 5 items, limit 3, page 3 (slice [6:4]); 0 items, limit 2, page 1 (slice [0:-1]) | an empty page | high; not executed | `DataSelect.PaginatePanicsPastEnd` | `DataSelect.CorrectedPageSize` |
