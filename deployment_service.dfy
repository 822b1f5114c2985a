/**
 * The deployment service of service/deployment.go: the listing pipeline over deployments, the
 * Deployment built from a creation request, the patch that restarts a deployment, the scale
 * update and the deployment count of every namespace. What the cluster answers is passed in, as
 * in PodService; the time of a restart is a parameter.
 */
module DeploymentService {

  import opened Results
  import opened KubeTypes
  import opened GoStrings
  import opened DataSelect

  /** The errors the deployment service reports; each carries the client's message. */
  datatype DeployError =
    | ListDeploymentsFailed(cause: string)
    | GetScaleFailed(cause: string)
    | UpdateScaleFailed(cause: string)
    | CreateFailed(cause: string)
    | RestartFailed(cause: string)
    | SliceOutOfRange

  /** DeploymentResp: one page of deployments and the number that passed the filter. */
  datatype DeploymentResp = DeploymentResp(items: seq<Deployment>, total: int)

  /** DeploysNp: the number of deployments in one namespace. */
  datatype DeploysNp = DeploysNp(namespace: string, deployNum: int)

  /** DeployCreate: the simplified creation request. */
  datatype DeployCreate = DeployCreate(
    name: string,
    namespace: string,
    replicas: int32,
    imag: string,
    labels: map<string, string>,
    cpu: string,
    memory: string,
    containerPort: int32,
    healthCheck: bool,
    healthPath: string)

  // ---------------------------------------------------------------------------
  // Cells

  /** The cells toCells makes from a list of deployments. */
  function DeploymentCells(ds: seq<Deployment>): (cells: seq<Cell<Deployment>>)
    ensures |cells| == |ds|
  {
    seq(|ds|, i requires 0 <= i < |ds| => DeploymentCell(ds[i]))
  }

  /** toCells: wrap every deployment, by index, into a cell. */
  method ToCells(deployments: seq<Deployment>) returns (cells: seq<Cell<Deployment>>)
    ensures cells == DeploymentCells(deployments)
  {
    var a := new Cell<Deployment>[|deployments|];
    for i := 0 to |deployments|
      invariant forall k :: 0 <= k < i ==> a[k] == DeploymentCell(deployments[k])
    {
      a[i] := DeploymentCell(deployments[i]);
    }
    cells := a[..];
  }

  /** fromCells: unwrap every cell, by index, back into its deployment. */
  method FromCells(cells: seq<Cell<Deployment>>) returns (deployments: seq<Deployment>)
    ensures deployments == Objects(cells)
  {
    var a := new Deployment[|cells|];
    for i := 0 to |cells|
      invariant forall k :: 0 <= k < i ==> a[k] == cells[k].obj
    {
      a[i] := cells[i].obj;
    }
    deployments := a[..];
  }

  /** Unwrapping what toCells made gives back the deployments, in order. */
  lemma UnwrapWrap(ds: seq<Deployment>)
    ensures Objects(DeploymentCells(ds)) == ds
  {
  }

  /** Wrapping what fromCells gave back rebuilds the cells, when they were made by deploymentCell. */
  lemma WrapUnwrap(cells: seq<Cell<Deployment>>)
    requires forall i :: 0 <= i < |cells| ==> cells[i] == DeploymentCell(cells[i].obj)
    ensures DeploymentCells(Objects(cells)) == cells
  {
  }

  // ---------------------------------------------------------------------------
  // Listing

  /**
   * GetDeployment: list the deployments, filter them by name, count what is left, sort it
   * newest first and cut the page. A failed listing returns its error; a page whose slice is out
   * of range is reported as SliceOutOfRange.
   */
  method GetDeployment(filterName: string, limit: int, page: int,
                       deploymentList: Result<seq<Deployment>, string>)
    returns (resp: Result<DeploymentResp, DeployError>)
    ensures deploymentList.Err? ==> resp == Err(ListDeploymentsFailed(deploymentList.error))
    ensures deploymentList.Ok? ==>
      (resp == Err(SliceOutOfRange) <==>
         PagePanics(|Filtered(DeploymentCells(deploymentList.value), filterName)|, limit, page))
    ensures deploymentList.Ok? ==>
      (resp.Ok? <==> !PagePanics(|Filtered(DeploymentCells(deploymentList.value), filterName)|, limit, page))
    ensures deploymentList.Ok? && resp.Ok? ==>
      IsSelection(DeploymentCells(deploymentList.value), SelectQuery(filterName, limit, page),
                  resp.value.total, resp.value.items)
    ensures deploymentList.Ok? && resp.Ok? ==>
      resp.value.total == |Filtered(DeploymentCells(deploymentList.value), filterName)|
      && |resp.value.items| <= resp.value.total
      && forall d :: d in resp.value.items ==> d in deploymentList.value && Contains(d.meta.name, filterName)
  {
    if deploymentList.Err? {
      return Err(ListDeploymentsFailed(deploymentList.error));
    }
    var cells := ToCells(deploymentList.value);
    var q := SelectQuery(filterName, limit, page);
    var selectable := new DataSelector(cells, q);
    selectable.Filter();
    var total := selectable.Len();
    ghost var filtered := selectable.list;
    selectable.Sort();
    ghost var sorted := selectable.list;
    var ok := selectable.Paginate();
    assert |sorted| == total by {
      assert |multiset(sorted)| == |multiset(filtered)|;
    }
    if !ok {
      return Err(SliceOutOfRange);
    }
    var deployments := FromCells(selectable.list);
    resp := Ok(DeploymentResp(deployments, total));
    assert IsSelection(cells, q, total, deployments);
    DeploymentSelectionItems(deploymentList.value, q, total, deployments);
  }

  /** Every deployment of a selection is one of the listed ones, with a matching name. */
  lemma DeploymentSelectionItems(ds: seq<Deployment>, q: DataSelectQuery, total: int, items: seq<Deployment>)
    requires IsSelection(DeploymentCells(ds), q, total, items)
    ensures |items| <= total
    ensures forall d :: d in items ==> d in ds && Contains(d.meta.name, q.filter.name)
  {
    SelectionItemsMatch(DeploymentCells(ds), q, total, items);
    forall d | d in items ensures d in ds && Contains(d.meta.name, q.filter.name) {
      var c :| c in DeploymentCells(ds) && c.obj == d && Contains(c.name, q.filter.name);
      var k :| 0 <= k < |ds| && DeploymentCells(ds)[k] == c;
    }
  }

  // ---------------------------------------------------------------------------
  // Scale

  /** The scale sent back to the cluster: the fetched one with int32(scaleNum) replicas. */
  function ScaleRequest(fetched: Scale, scaleNum: int): (s: Scale)
    ensures s.meta == fetched.meta && s.status == fetched.status
    ensures s.spec.replicas == Int32Of(scaleNum)
    ensures -0x8000_0000 <= scaleNum < 0x8000_0000 ==> s.spec.replicas as int == scaleNum
  {
    fetched.(spec := fetched.spec.(replicas := Int32Of(scaleNum)))
  }

  /**
   * ScaleDeployment: fetch the scale, set its replicas, write it back, and report the replicas
   * of the scale the cluster returns (not the number asked for). Either failure gives 0 and
   * the error.
   */
  function ScaleDeployment(scaleNum: int, getScale: Result<Scale, string>,
                           updateScale: Scale -> Result<Scale, string>): (r: (int32, Option<DeployError>))
    ensures getScale.Err? ==> r == (0, Some(GetScaleFailed(getScale.error)))
    ensures getScale.Ok? && updateScale(ScaleRequest(getScale.value, scaleNum)).Err? ==>
      r == (0, Some(UpdateScaleFailed(updateScale(ScaleRequest(getScale.value, scaleNum)).error)))
    ensures getScale.Ok? && updateScale(ScaleRequest(getScale.value, scaleNum)).Ok? ==>
      r == (updateScale(ScaleRequest(getScale.value, scaleNum)).value.spec.replicas, None)
  {
    match getScale
    case Err(e) => (0, Some(GetScaleFailed(e)))
    case Ok(scale) =>
      match updateScale(ScaleRequest(scale, scaleNum))
      case Err(e) => (0, Some(UpdateScaleFailed(e)))
      case Ok(newScale) => (newScale.spec.replicas, None)
  }

  // ---------------------------------------------------------------------------
  // Create

  /** The probe timing policy: HTTP GET on the health path and container port, 5s timeout and period. */
  function HealthProbe(data: DeployCreate, initialDelaySeconds: int32): Probe
  {
    Probe(HTTPGetAction(data.healthPath, IntVal(data.containerPort)), initialDelaySeconds, 5, 5)
  }

  /** The quantities used both as limits and as requests. */
  function Quantities(data: DeployCreate): map<ResourceName, string>
  {
    map[Cpu := data.cpu, Memory := data.memory]
  }

  /**
   * The Deployment CreateDeployment sends for `data`: name, namespace and labels from the
   * request; the selector and the pod template carry exactly the request's labels; one container
   * named after the deployment with the request's image and one TCP port named "http"; readiness
   * (delay 5s) and liveness (delay 15s) probes only when health checking is asked for; identical
   * limits and requests; an empty status.
   */
  ghost predicate BuiltFrom(d: Deployment, data: DeployCreate)
  {
    && d.meta == ObjectMeta(data.name, data.namespace, data.labels, ZeroTime)
    && d.spec.replicas == data.replicas
    && d.spec.selector == LabelSelector(data.labels)
    && d.spec.template.meta == ObjectMeta(data.name, "", data.labels, ZeroTime)
    && d.status == EmptyStatus
    && |d.spec.template.spec.containers| == 1
    && var c := d.spec.template.spec.containers[0];
    && c.name == data.name
    && c.image == data.imag
    && c.ports == [ContainerPort("http", TCP, data.containerPort)]
    && c.readinessProbe == (if data.healthCheck then Some(HealthProbe(data, 5)) else None)
    && c.livenessProbe == (if data.healthCheck then Some(HealthProbe(data, 15)) else None)
    && c.resources == ResourceRequirements(Quantities(data), Quantities(data))
  }

  function FirstContainer(d: Deployment): Container
    requires |d.spec.template.spec.containers| > 0
  {
    d.spec.template.spec.containers[0]
  }

  /** deployment.Spec.Template.Spec.Containers[0] = c */
  function WithFirstContainer(d: Deployment, c: Container): (r: Deployment)
    requires |d.spec.template.spec.containers| > 0
    ensures |r.spec.template.spec.containers| == |d.spec.template.spec.containers|
  {
    var t := d.spec.template;
    d.(spec := d.spec.(template := t.(spec := t.spec.(containers := t.spec.containers[0 := c]))))
  }

  /** The literal of CreateDeployment, then the probes and the resources set on container 0. */
  method BuildDeployment(data: DeployCreate) returns (d: Deployment)
    ensures BuiltFrom(d, data)
    ensures d.spec.selector.matchLabels == d.spec.template.meta.labels
    ensures var c := d.spec.template.spec.containers[0];
      && (c.readinessProbe.Some? <==> data.healthCheck)
      && (c.livenessProbe.Some? <==> data.healthCheck)
      && c.resources.limits == c.resources.requests
  {
    d := Deployment(
      ObjectMeta(data.name, data.namespace, data.labels, ZeroTime),
      DeploymentSpec(
        data.replicas,
        LabelSelector(data.labels),
        PodTemplateSpec(
          ObjectMeta(data.name, "", data.labels, ZeroTime),
          PodSpec([Container(data.name, data.imag, [ContainerPort("http", TCP, data.containerPort)],
                             None, None, ResourceRequirements(map[], map[]))]))),
      EmptyStatus);
    if data.healthCheck {
      d := WithFirstContainer(d, FirstContainer(d).(readinessProbe := Some(HealthProbe(data, 5))));
      d := WithFirstContainer(d, FirstContainer(d).(livenessProbe := Some(HealthProbe(data, 15))));
    }
    var c := FirstContainer(d);
    d := WithFirstContainer(d, c.(resources := c.resources.(limits := Quantities(data))));
    c := FirstContainer(d);
    d := WithFirstContainer(d, c.(resources := c.resources.(requests := Quantities(data))));
  }

  /** The construction is deterministic: one request describes exactly one Deployment. */
  lemma BuiltFromUnique(d1: Deployment, d2: Deployment, data: DeployCreate)
    requires BuiltFrom(d1, data) && BuiltFrom(d2, data)
    ensures d1 == d2
  {
    var cs1, cs2 := d1.spec.template.spec.containers, d2.spec.template.spec.containers;
    assert cs1[0] == cs2[0];
    assert cs1 == cs2;
  }

  /** With health checking, both probes point at the request's path and port. */
  lemma BuiltProbesUseRequest(d: Deployment, data: DeployCreate)
    requires BuiltFrom(d, data) && data.healthCheck
    ensures var c := d.spec.template.spec.containers[0];
      && c.readinessProbe.value.httpGet == HTTPGetAction(data.healthPath, IntVal(data.containerPort))
      && c.livenessProbe.value.httpGet == c.readinessProbe.value.httpGet
      && c.readinessProbe.value.initialDelaySeconds < c.livenessProbe.value.initialDelaySeconds
  {
  }

  /**
   * CreateDeployment: build the Deployment and create it in the request's namespace; a failed
   * create returns its error.
   */
  method CreateDeployment(data: DeployCreate, create: (string, Deployment) -> Option<string>)
    returns (err: Option<DeployError>)
    ensures exists d ::
      && BuiltFrom(d, data)
      && (create(data.namespace, d).None? ==> err == None)
      && (create(data.namespace, d).Some? ==> err == Some(CreateFailed(create(data.namespace, d).value)))
  {
    var deployment := BuildDeployment(data);
    var response := create(data.namespace, deployment);
    if response.Some? {
      return Some(CreateFailed(response.value));
    }
    return None;
  }

  // ---------------------------------------------------------------------------
  // Restart

  /** A JSON value as the patch map marshals it. */
  datatype Json = JString(s: string) | JArray(items: seq<Json>) | JObject(fields: map<string, Json>)

  /** The value at a path of object keys, if every step is an object holding the key. */
  function Lookup(j: Json, path: seq<string>): Option<Json>
    decreases |path|
  {
    if path == [] then Some(j)
    else if j.JObject? && path[0] in j.fields then Lookup(j.fields[path[0]], path[1..])
    else None
  }

  /** Every object along the path holds that one key and nothing else. */
  ghost predicate OnlyAlong(j: Json, path: seq<string>)
    decreases |path|
  {
    path == [] || (j.JObject? && j.fields.Keys == {path[0]} && OnlyAlong(j.fields[path[0]], path[1..]))
  }

  const ContainersPath: seq<string> := ["spec", "template", "spec", "containers"]

  const StrategicMergePatch: string := "application/strategic-merge-patch+json"

  /**
   * The restart patch: under spec.template.spec.containers, and nowhere else, one container
   * entry with the deployment's name and the single env var RESTART_ holding the restart time
   * as decimal text.
   */
  function RestartPatch(deploymentName: string, now: int): (r: Json)
    ensures OnlyAlong(r, ContainersPath)
    ensures Lookup(r, ContainersPath).Some? && Lookup(r, ContainersPath).value.JArray?
    ensures var entries := Lookup(r, ContainersPath).value.items;
      && |entries| == 1
      && entries[0].JObject? && entries[0].fields.Keys == {"name", "env"}
      && Lookup(entries[0], ["name"]) == Some(JString(deploymentName))
      && Lookup(entries[0], ["env"]).Some? && Lookup(entries[0], ["env"]).value.JArray?
      && |Lookup(entries[0], ["env"]).value.items| == 1
      && var env := Lookup(entries[0], ["env"]).value.items[0];
         && env.JObject? && env.fields.Keys == {"name", "value"}
         && Lookup(env, ["name"]) == Some(JString("RESTART_"))
         && Lookup(env, ["value"]).Some? && Lookup(env, ["value"]).value.JString?
         && ParseInt(Lookup(env, ["value"]).value.s) == Some(now)
  {
    FormatIntRoundTrip(now);
    var env := JObject(map["name" := JString("RESTART_"), "value" := JString(FormatInt(now))]);
    var container := JObject(map["name" := JString(deploymentName), "env" := JArray([env])]);
    JObject(map["spec" := JObject(map["template" := JObject(map["spec" :=
      JObject(map["containers" := JArray([container])])])])])
  }

  /** A strategic-merge patch request to the cluster. */
  datatype PatchCall = PatchCall(namespace: string, name: string, patchType: string, body: Json)

  /**
   * RestartDeployment: send the restart patch, stamped with `now`, as a strategic merge patch
   * on the named deployment; a failed patch returns its error.
   */
  function RestartDeployment(deploymentName: string, namespace: string, now: int,
                             patch: PatchCall -> Option<string>): (r: Option<DeployError>)
    ensures var call := PatchCall(namespace, deploymentName, StrategicMergePatch, RestartPatch(deploymentName, now));
      && (patch(call).None? ==> r == None)
      && (patch(call).Some? ==> r == Some(RestartFailed(patch(call).value)))
  {
    var response := patch(PatchCall(namespace, deploymentName, StrategicMergePatch, RestartPatch(deploymentName, now)));
    if response.Some? then Some(RestartFailed(response.value)) else None
  }

  // ---------------------------------------------------------------------------
  // Count per namespace

  /**
   * GetDeployNumPerNp: for every namespace, in order, the number of its deployments. A failed
   * namespace listing, or the first failed deployment listing, aborts with that error.
   */
  method GetDeployNumPerNp(namespaceList: Result<seq<Namespace>, string>,
                           listDeployments: string -> Result<seq<Deployment>, string>)
    returns (r: Result<seq<DeploysNp>, string>)
    ensures namespaceList.Err? ==> r == Err(namespaceList.error)
    ensures namespaceList.Ok? ==>
      (r.Ok? <==> forall i :: 0 <= i < |namespaceList.value| ==> listDeployments(namespaceList.value[i].name).Ok?)
    ensures namespaceList.Ok? && r.Ok? ==>
      |r.value| == |namespaceList.value|
      && forall i :: 0 <= i < |r.value| ==>
           r.value[i] == DeploysNp(namespaceList.value[i].name, |listDeployments(namespaceList.value[i].name).value|)
    ensures namespaceList.Ok? && r.Err? ==>
      exists k :: 0 <= k < |namespaceList.value|
        && listDeployments(namespaceList.value[k].name) == Err(r.error)
        && forall i :: 0 <= i < k ==> listDeployments(namespaceList.value[i].name).Ok?
  {
    if namespaceList.Err? {
      return Err(namespaceList.error);
    }
    var namespaces := namespaceList.value;
    var deploysNps: seq<DeploysNp> := [];
    for i := 0 to |namespaces|
      invariant |deploysNps| == i
      invariant forall k :: 0 <= k < i ==> listDeployments(namespaces[k].name).Ok?
      invariant forall k :: 0 <= k < i ==>
        deploysNps[k] == DeploysNp(namespaces[k].name, |listDeployments(namespaces[k].name).value|)
    {
      var deploymentList := listDeployments(namespaces[i].name);
      if deploymentList.Err? {
        return Err(deploymentList.error);
      }
      deploysNps := deploysNps + [DeploysNp(namespaces[i].name, |deploymentList.value|)];
    }
    return Ok(deploysNps);
  }
}
