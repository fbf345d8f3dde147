/**
 * The cluster as the controller sees it through its client: keyed stores
 * of Demo, Service and Deployment objects and the pod list. Every store
 * call may fail; which calls fail in a pass is given by a fault plan.
 */
module ClusterStore {
  import opened Wrappers
  import opened DemoTypes
  import opened KubeTypes

  datatype Cluster = Cluster(
    demos: map<ObjectKey, Demo>,
    services: map<ObjectKey, Service>,
    deployments: map<ObjectKey, Deployment>,
    pods: seq<Pod>)

  /** The API server stores every object under its own name and namespace. */
  predicate WellKeyed(c: Cluster) {
    (forall k :: k in c.demos ==> KeyOf(c.demos[k].meta) == k) &&
    (forall k :: k in c.services ==> KeyOf(c.services[k].meta) == k) &&
    (forall k :: k in c.deployments ==> KeyOf(c.deployments[k].meta) == k)
  }

  datatype Kind = DemoKind | ServiceKind | DeploymentKind

  /** A request the controller issues to the API server. */
  datatype Call =
    | Get(kind: Kind, key: ObjectKey)
    | Create(kind: Kind, key: ObjectKey)
    | Update(kind: Kind, key: ObjectKey)
    | UpdateStatus(key: ObjectKey)
    | List(namespace: string, selector: map<string, string>)
  {
    predicate IsWrite() {
      Create? || Update? || UpdateStatus?
    }
  }

  /** A failure the API server or the transport can report for any call. */
  datatype Fault = Conflict | Unavailable | Timeout | Forbidden

  /** The error a call returns; `NotFound` and `AlreadyExists` come from the store's contents. */
  datatype ApiError = NotFound | AlreadyExists | Failed(fault: Fault)

  /** Which calls of a pass fail, and how. */
  type Faults = map<Call, Fault>

  function FetchDemo(c: Cluster, f: Faults, key: ObjectKey): Result<Demo, ApiError> {
    if Get(DemoKind, key) in f then Failure(Failed(f[Get(DemoKind, key)]))
    else if key in c.demos then Success(c.demos[key])
    else Failure(NotFound)
  }

  function FetchService(c: Cluster, f: Faults, key: ObjectKey): Result<Service, ApiError> {
    if Get(ServiceKind, key) in f then Failure(Failed(f[Get(ServiceKind, key)]))
    else if key in c.services then Success(c.services[key])
    else Failure(NotFound)
  }

  function FetchDeployment(c: Cluster, f: Faults, key: ObjectKey): Result<Deployment, ApiError> {
    if Get(DeploymentKind, key) in f then Failure(Failed(f[Get(DeploymentKind, key)]))
    else if key in c.deployments then Success(c.deployments[key])
    else Failure(NotFound)
  }

  /** The cluster after a write, and the error the write returned. */
  datatype Written = Written(after: Cluster, err: Option<ApiError>)

  function StoreCreateService(c: Cluster, f: Faults, s: Service): Written {
    var k := KeyOf(s.meta);
    if Create(ServiceKind, k) in f then Written(c, Some(Failed(f[Create(ServiceKind, k)])))
    else if k in c.services then Written(c, Some(AlreadyExists))
    else Written(c.(services := c.services[k := s]), None)
  }

  function StoreCreateDeployment(c: Cluster, f: Faults, d: Deployment): Written {
    var k := KeyOf(d.meta);
    if Create(DeploymentKind, k) in f then Written(c, Some(Failed(f[Create(DeploymentKind, k)])))
    else if k in c.deployments then Written(c, Some(AlreadyExists))
    else Written(c.(deployments := c.deployments[k := d]), None)
  }

  function StoreUpdateDeployment(c: Cluster, f: Faults, d: Deployment): Written {
    var k := KeyOf(d.meta);
    if Update(DeploymentKind, k) in f then Written(c, Some(Failed(f[Update(DeploymentKind, k)])))
    else if k !in c.deployments then Written(c, Some(NotFound))
    else Written(c.(deployments := c.deployments[k := d]), None)
  }

  /** The status subresource: only the stored object's status is replaced. */
  function StoreUpdateStatus(c: Cluster, f: Faults, d: Demo): Written {
    var k := KeyOf(d.meta);
    if UpdateStatus(k) in f then Written(c, Some(Failed(f[UpdateStatus(k)])))
    else if k !in c.demos then Written(c, Some(NotFound))
    else Written(c.(demos := c.demos[k := c.demos[k].(status := d.status)]), None)
  }

  /** The pods in `namespace` that `selector` matches, in stored order. */
  function MatchingPods(pods: seq<Pod>, namespace: string, selector: map<string, string>): seq<Pod> {
    if pods == [] then []
    else
      var rest := MatchingPods(pods[1..], namespace, selector);
      if pods[0].meta.namespace == namespace && Selects(selector, pods[0].meta.labels)
      then [pods[0]] + rest
      else rest
  }

  /** The list holds exactly the pods of the namespace that the selector matches, and no more pods than are stored. */
  lemma {:induction false} MatchingPodsMembers(pods: seq<Pod>, namespace: string, selector: map<string, string>)
    ensures |MatchingPods(pods, namespace, selector)| <= |pods|
    ensures forall p :: p in MatchingPods(pods, namespace, selector) <==>
      p in pods && p.meta.namespace == namespace && Selects(selector, p.meta.labels)
  {
    if pods != [] {
      MatchingPodsMembers(pods[1..], namespace, selector);
      assert pods == [pods[0]] + pods[1..];
    }
  }

  function StoreList(c: Cluster, f: Faults, namespace: string, selector: map<string, string>): Result<seq<Pod>, ApiError> {
    if List(namespace, selector) in f then Failure(Failed(f[List(namespace, selector)]))
    else Success(MatchingPods(c.pods, namespace, selector))
  }

  /**
   * The controller's client: the cluster it talks to, the fault plan of the
   * current pass and the log of calls issued so far.
   */
  class Client {
    var cluster: Cluster
    var faults: Faults
    var calls: seq<Call>

    constructor (cluster: Cluster, faults: Faults)
      ensures this.cluster == cluster && this.faults == faults && calls == []
    {
      this.cluster := cluster;
      this.faults := faults;
      calls := [];
    }

    method GetDemo(key: ObjectKey) returns (r: Result<Demo, ApiError>)
      modifies this`calls
      ensures r == FetchDemo(cluster, faults, key)
      ensures calls == old(calls) + [Get(DemoKind, key)]
    {
      r := FetchDemo(cluster, faults, key);
      calls := calls + [Get(DemoKind, key)];
    }

    method GetService(key: ObjectKey) returns (r: Result<Service, ApiError>)
      modifies this`calls
      ensures r == FetchService(cluster, faults, key)
      ensures calls == old(calls) + [Get(ServiceKind, key)]
    {
      r := FetchService(cluster, faults, key);
      calls := calls + [Get(ServiceKind, key)];
    }

    method GetDeployment(key: ObjectKey) returns (r: Result<Deployment, ApiError>)
      modifies this`calls
      ensures r == FetchDeployment(cluster, faults, key)
      ensures calls == old(calls) + [Get(DeploymentKind, key)]
    {
      r := FetchDeployment(cluster, faults, key);
      calls := calls + [Get(DeploymentKind, key)];
    }

    method CreateService(s: Service) returns (err: Option<ApiError>)
      modifies this`cluster, this`calls
      ensures Written(cluster, err) == StoreCreateService(old(cluster), faults, s)
      ensures calls == old(calls) + [Create(ServiceKind, KeyOf(s.meta))]
    {
      var w := StoreCreateService(cluster, faults, s);
      cluster, err := w.after, w.err;
      calls := calls + [Create(ServiceKind, KeyOf(s.meta))];
    }

    method CreateDeployment(d: Deployment) returns (err: Option<ApiError>)
      modifies this`cluster, this`calls
      ensures Written(cluster, err) == StoreCreateDeployment(old(cluster), faults, d)
      ensures calls == old(calls) + [Create(DeploymentKind, KeyOf(d.meta))]
    {
      var w := StoreCreateDeployment(cluster, faults, d);
      cluster, err := w.after, w.err;
      calls := calls + [Create(DeploymentKind, KeyOf(d.meta))];
    }

    method UpdateDeployment(d: Deployment) returns (err: Option<ApiError>)
      modifies this`cluster, this`calls
      ensures Written(cluster, err) == StoreUpdateDeployment(old(cluster), faults, d)
      ensures calls == old(calls) + [Update(DeploymentKind, KeyOf(d.meta))]
    {
      var w := StoreUpdateDeployment(cluster, faults, d);
      cluster, err := w.after, w.err;
      calls := calls + [Update(DeploymentKind, KeyOf(d.meta))];
    }

    method UpdateDemoStatus(d: Demo) returns (err: Option<ApiError>)
      modifies this`cluster, this`calls
      ensures Written(cluster, err) == StoreUpdateStatus(old(cluster), faults, d)
      ensures calls == old(calls) + [UpdateStatus(KeyOf(d.meta))]
    {
      var w := StoreUpdateStatus(cluster, faults, d);
      cluster, err := w.after, w.err;
      calls := calls + [UpdateStatus(KeyOf(d.meta))];
    }

    method ListPods(namespace: string, selector: map<string, string>) returns (r: Result<seq<Pod>, ApiError>)
      modifies this`calls
      ensures r == StoreList(cluster, faults, namespace, selector)
      ensures calls == old(calls) + [List(namespace, selector)]
    {
      r := StoreList(cluster, faults, namespace, selector);
      calls := calls + [List(namespace, selector)];
    }
  }
}
