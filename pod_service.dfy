/**
 * The pod service of service/pod.go: the listing pipeline over pods, the wrapping of pods into
 * cells and back, the container names of one pod and the pod count of every namespace. What the
 * cluster answers is passed in: a fetched list or object as a Result whose error is the client's
 * message, and per-namespace listings as a function from namespace name to such a Result.
 */
module PodService {

  import opened Results
  import opened KubeTypes
  import opened GoStrings
  import opened DataSelect

  /** The errors the pod service reports; each carries the client's message. */
  datatype PodError =
    | ListPodsFailed(cause: string)
    | GetDetailFailed(cause: string)
    | SliceOutOfRange

  /** PodsResp: one page of pods and the number of pods that passed the filter. */
  datatype PodsResp = PodsResp(total: int, items: seq<Pod>)

  /** PodsNp: the number of pods in one namespace. */
  datatype PodsNp = PodsNp(namespace: string, podNum: int)

  /** The cells toCells makes from a list of pods. */
  function PodCells(pods: seq<Pod>): (cells: seq<Cell<Pod>>)
    ensures |cells| == |pods|
  {
    seq(|pods|, i requires 0 <= i < |pods| => PodCell(pods[i]))
  }

  /** A cell made by podCell: its name and creation time are those of the pod inside. */
  predicate IsPodCell(c: Cell<Pod>)
  {
    c == PodCell(c.obj)
  }

  /** toCells: wrap every pod, by index, into a cell. */
  method ToCells(pods: seq<Pod>) returns (cells: seq<Cell<Pod>>)
    ensures cells == PodCells(pods)
  {
    var a := new Cell<Pod>[|pods|];
    for i := 0 to |pods|
      invariant forall k :: 0 <= k < i ==> a[k] == PodCell(pods[k])
    {
      a[i] := PodCell(pods[i]);
    }
    cells := a[..];
  }

  /** fromCells: unwrap every cell, by index, back into its pod. */
  method FromCells(cells: seq<Cell<Pod>>) returns (pods: seq<Pod>)
    ensures pods == Objects(cells)
  {
    var a := new Pod[|cells|];
    for i := 0 to |cells|
      invariant forall k :: 0 <= k < i ==> a[k] == cells[k].obj
    {
      a[i] := cells[i].obj;
    }
    pods := a[..];
  }

  /** Unwrapping what toCells made gives back the pods, in order. */
  lemma UnwrapWrap(pods: seq<Pod>)
    ensures Objects(PodCells(pods)) == pods
  {
  }

  /** Wrapping what fromCells gave back rebuilds the cells, when they were made by podCell. */
  lemma WrapUnwrap(cells: seq<Cell<Pod>>)
    requires forall i :: 0 <= i < |cells| ==> IsPodCell(cells[i])
    ensures PodCells(Objects(cells)) == cells
  {
  }

  /**
   * GetPods: list the pods, filter them by name, count what is left, sort it newest first and
   * cut the page. A failed listing returns its error and runs no selection; a page whose slice
   * is out of range is reported as SliceOutOfRange.
   */
  method GetPods(filterName: string, limit: int, page: int, podList: Result<seq<Pod>, string>)
    returns (resp: Result<PodsResp, PodError>)
    ensures podList.Err? ==> resp == Err(ListPodsFailed(podList.error))
    ensures podList.Ok? ==>
      (resp == Err(SliceOutOfRange) <==>
         PagePanics(|Filtered(PodCells(podList.value), filterName)|, limit, page))
    ensures podList.Ok? ==>
      (resp.Ok? <==> !PagePanics(|Filtered(PodCells(podList.value), filterName)|, limit, page))
    ensures podList.Ok? && resp.Ok? ==>
      IsSelection(PodCells(podList.value), SelectQuery(filterName, limit, page),
                  resp.value.total, resp.value.items)
    ensures podList.Ok? && resp.Ok? ==>
      resp.value.total == |Filtered(PodCells(podList.value), filterName)|
      && |resp.value.items| <= resp.value.total
      && forall p :: p in resp.value.items ==> p in podList.value && Contains(p.meta.name, filterName)
  {
    if podList.Err? {
      return Err(ListPodsFailed(podList.error));
    }
    var cells := ToCells(podList.value);
    var q := SelectQuery(filterName, limit, page);
    var selectable := new DataSelector(cells, q);
    selectable.Filter();
    var total := selectable.Len();
    ghost var filtered := selectable.list;
    selectable.Sort();
    ghost var sorted := selectable.list;
    var ok := selectable.Paginate();
    assert |sorted| == total by {
      assert |multiset(sorted)| == |multiset(filtered)|;
    }
    if !ok {
      return Err(SliceOutOfRange);
    }
    var pods := FromCells(selectable.list);
    resp := Ok(PodsResp(total, pods));
    assert IsSelection(cells, q, total, pods);
    PodSelectionItems(podList.value, q, total, pods);
  }

  /** Every pod of a selection over the pods' cells is one of the pods, with a matching name. */
  lemma PodSelectionItems(pods: seq<Pod>, q: DataSelectQuery, total: int, items: seq<Pod>)
    requires IsSelection(PodCells(pods), q, total, items)
    ensures |items| <= total
    ensures forall p :: p in items ==> p in pods && Contains(p.meta.name, q.filter.name)
  {
    SelectionItemsMatch(PodCells(pods), q, total, items);
    forall p | p in items ensures p in pods && Contains(p.meta.name, q.filter.name) {
      var c :| c in PodCells(pods) && c.obj == p && Contains(c.name, q.filter.name);
      var k :| 0 <= k < |pods| && PodCells(pods)[k] == c;
    }
  }

  /** GetDetail: the pod the cluster returns, or its error wrapped. */
  function GetDetail(fetched: Result<Pod, string>): (r: Result<Pod, PodError>)
    ensures fetched.Ok? ==> r == Ok(fetched.value)
    ensures fetched.Err? ==> r == Err(GetDetailFailed(fetched.error))
  {
    match fetched
    case Ok(p) => Ok(p)
    case Err(e) => Err(GetDetailFailed(e))
  }

  /** GetPodContainer: the names of the pod's containers, in the pod spec's order. */
  method GetPodContainer(fetched: Result<Pod, string>) returns (r: Result<seq<string>, PodError>)
    ensures fetched.Err? ==> r == Err(GetDetailFailed(fetched.error))
    ensures fetched.Ok? ==>
      && r.Ok?
      && |r.value| == |fetched.value.spec.containers|
      && forall i :: 0 <= i < |r.value| ==> r.value[i] == fetched.value.spec.containers[i].name
  {
    var pod := GetDetail(fetched);
    if pod.Err? {
      return Err(pod.error);
    }
    var containers: seq<string> := [];
    for i := 0 to |pod.value.spec.containers|
      invariant |containers| == i
      invariant forall k :: 0 <= k < i ==> containers[k] == pod.value.spec.containers[k].name
    {
      containers := containers + [pod.value.spec.containers[i].name];
    }
    return Ok(containers);
  }

  /**
   * GetPodNumPerNp: for every namespace, in order, the number of its pods. A failed namespace
   * listing, or the first failed pod listing, aborts with that error.
   */
  method GetPodNumPerNp(namespaceList: Result<seq<Namespace>, string>,
                        listPods: string -> Result<seq<Pod>, string>)
    returns (r: Result<seq<PodsNp>, string>)
    ensures namespaceList.Err? ==> r == Err(namespaceList.error)
    ensures namespaceList.Ok? ==>
      (r.Ok? <==> forall i :: 0 <= i < |namespaceList.value| ==> listPods(namespaceList.value[i].name).Ok?)
    ensures namespaceList.Ok? && r.Ok? ==>
      |r.value| == |namespaceList.value|
      && forall i :: 0 <= i < |r.value| ==>
           r.value[i] == PodsNp(namespaceList.value[i].name, |listPods(namespaceList.value[i].name).value|)
    ensures namespaceList.Ok? && r.Err? ==>
      exists k :: 0 <= k < |namespaceList.value|
        && listPods(namespaceList.value[k].name) == Err(r.error)
        && forall i :: 0 <= i < k ==> listPods(namespaceList.value[i].name).Ok?
  {
    if namespaceList.Err? {
      return Err(namespaceList.error);
    }
    var namespaces := namespaceList.value;
    var podsNps: seq<PodsNp> := [];
    for i := 0 to |namespaces|
      invariant |podsNps| == i
      invariant forall k :: 0 <= k < i ==> listPods(namespaces[k].name).Ok?
      invariant forall k :: 0 <= k < i ==>
        podsNps[k] == PodsNp(namespaces[k].name, |listPods(namespaces[k].name).value|)
    {
      var podList := listPods(namespaces[i].name);
      if podList.Err? {
        return Err(podList.error);
      }
      podsNps := podsNps + [PodsNp(namespaces[i].name, |podList.value|)];
    }
    return Ok(podsNps);
  }
}
