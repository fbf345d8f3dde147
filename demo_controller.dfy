/**
 * One reconciliation pass of controllers/demo_controller.go: fetch the CR,
 * then its service, then its deployment, then its pods, and stop after the
 * first write or the first error.
 */
module DemoController {
  import opened Wrappers
  import opened DemoTypes
  import opened KubeTypes
  import opened KubeUtils
  import opened ClusterStore

  /** `ctrl.Result`: whether and when the key is queued again. */
  datatype CtrlResult = CtrlResult(requeue: bool, requeueAfter: nat)

  /** `ctrl.Result{}`: no explicit requeue. */
  const EmptyResult := CtrlResult(false, 0)

  /** What a pass leaves behind: the cluster, the calls issued, and its return values. */
  datatype PassResult = PassResult(after: Cluster, calls: seq<Call>, result: CtrlResult, err: Option<ApiError>)

  predicate NoWrites(calls: seq<Call>) {
    forall i :: 0 <= i < |calls| ==> !calls[i].IsWrite()
  }

  /** The key of the CR's children: the CR's own name and namespace. */
  function ChildKey(cr: Demo): ObjectKey {
    KeyOf(cr.meta)
  }

  /** The pods the pass lists for `cr`: the request namespace, label `app=<cr name>`. */
  function ListCall(req: ObjectKey, cr: Demo): Call {
    List(req.namespace, LabelForCR(cr.meta.name))
  }

  /** The pod names the status of `cr` should hold. */
  function ObservedNodes(c: Cluster, req: ObjectKey, cr: Demo): seq<string> {
    PodNames(MatchingPods(c.pods, req.namespace, LabelForCR(cr.meta.name)))
  }

  /**
   * The specification of `Reconcile`: the pass as a function of the cluster,
   * the fault plan and the request key.
   */
  function ReconcilePass(c: Cluster, f: Faults, req: ObjectKey): (p: PassResult)
    ensures |p.calls| >= 1 && p.calls[0] == Get(DemoKind, req)
  {
    match FetchDemo(c, f, req)
    case Failure(e) => PassResult(c, [Get(DemoKind, req)], EmptyResult, if e == NotFound then None else Some(e))
    case Success(cr) => ServiceStep(c, f, req, cr)
  }

  /** Lines 84-108: create the service if it is absent; an existing one is left as it is. */
  function ServiceStep(c: Cluster, f: Faults, req: ObjectKey, cr: Demo): (p: PassResult)
    ensures |p.calls| >= 1 && p.calls[0] == Get(DemoKind, req)
  {
    var calls := [Get(DemoKind, req), Get(ServiceKind, ChildKey(cr))];
    match FetchService(c, f, ChildKey(cr))
    case Failure(NotFound) =>
      var svc := BuildService(cr);
      var w := StoreCreateService(c, f, svc);
      PassResult(w.after, calls + [Create(ServiceKind, KeyOf(svc.meta))], EmptyResult, w.err)
    case Failure(e) => PassResult(c, calls, EmptyResult, Some(e))
    case Success(_) => DeploymentStep(c, f, req, cr)
  }

  /** Lines 110-151: create the deployment if absent, else correct its replica count. */
  function DeploymentStep(c: Cluster, f: Faults, req: ObjectKey, cr: Demo): (p: PassResult)
    ensures |p.calls| >= 1 && p.calls[0] == Get(DemoKind, req)
  {
    var calls := [Get(DemoKind, req), Get(ServiceKind, ChildKey(cr)), Get(DeploymentKind, ChildKey(cr))];
    match FetchDeployment(c, f, ChildKey(cr))
    case Failure(NotFound) =>
      var d := BuildDeployment(cr);
      var w := StoreCreateDeployment(c, f, d);
      PassResult(w.after, calls + [Create(DeploymentKind, KeyOf(d.meta))], EmptyResult, w.err)
    case Failure(e) => PassResult(c, calls, EmptyResult, Some(e))
    case Success(d) =>
      if d.spec.replicas != cr.spec.size then
        var fixed := d.(spec := d.spec.(replicas := cr.spec.size));
        var w := StoreUpdateDeployment(c, f, fixed);
        PassResult(w.after, calls + [Update(DeploymentKind, KeyOf(fixed.meta))], EmptyResult, w.err)
      else
        StatusStep(c, f, req, cr)
  }

  /** Lines 153-180: list the CR's pods and store their names if they changed. */
  function StatusStep(c: Cluster, f: Faults, req: ObjectKey, cr: Demo): (p: PassResult)
    ensures |p.calls| >= 1 && p.calls[0] == Get(DemoKind, req)
  {
    var calls := [Get(DemoKind, req), Get(ServiceKind, ChildKey(cr)), Get(DeploymentKind, ChildKey(cr)), ListCall(req, cr)];
    match StoreList(c, f, req.namespace, LabelForCR(cr.meta.name))
    case Failure(e) => PassResult(c, calls, EmptyResult, Some(e))
    case Success(pods) =>
      var names := PodNames(pods);
      if names != cr.status.nodes then
        var updated := cr.(status := DemoStatus(names));
        var w := StoreUpdateStatus(c, f, updated);
        PassResult(w.after, calls + [UpdateStatus(KeyOf(updated.meta))], EmptyResult, w.err)
      else
        PassResult(c, calls, EmptyResult, None)
  }

  /** `DemoReconciler`: the reconciler and the client it issues its calls through. */
  class DemoReconciler {
    const client: Client

    constructor (client: Client)
      ensures this.client == client
    {
      this.client := client;
    }

    /**
     * `Reconcile`: one pass, issued step by step against the client, with an
     * early return after the first write or error.
     */
    method Reconcile(req: ObjectKey) returns (result: CtrlResult, err: Option<ApiError>)
      modifies client
      ensures client.faults == old(client.faults)
      ensures var p := ReconcilePass(old(client.cluster), old(client.faults), req);
        client.cluster == p.after && client.calls == old(client.calls) + p.calls &&
        result == p.result && err == p.err
    {
      ghost var c0, f0, log := client.cluster, client.faults, client.calls;
      var got := client.GetDemo(req);
      if got.Failure? {
        if got.error == NotFound {
          return EmptyResult, None;
        }
        return EmptyResult, Some(got.error);
      }
      var cr := got.value;
      var size := cr.spec.size;
      var key := ObjectKey(cr.meta.namespace, cr.meta.name);
      assert ReconcilePass(c0, f0, req) == ServiceStep(c0, f0, req, cr);

      var svc := client.GetService(key);
      assert client.calls == log + [Get(DemoKind, req), Get(ServiceKind, key)];
      if svc.Failure? {
        if svc.error == NotFound {
          var newSvc := BuildService(cr);
          assert ServiceStep(c0, f0, req, cr).calls == [Get(DemoKind, req), Get(ServiceKind, key), Create(ServiceKind, KeyOf(newSvc.meta))];
          err := client.CreateService(newSvc);
          return EmptyResult, err;
        }
        return EmptyResult, Some(svc.error);
      }

      assert ServiceStep(c0, f0, req, cr) == DeploymentStep(c0, f0, req, cr);
      var dply := client.GetDeployment(key);
      assert client.calls == log + [Get(DemoKind, req), Get(ServiceKind, key), Get(DeploymentKind, key)];
      if dply.Failure? {
        if dply.error == NotFound {
          var newDply := BuildDeployment(cr);
          assert DeploymentStep(c0, f0, req, cr).calls ==
            [Get(DemoKind, req), Get(ServiceKind, key), Get(DeploymentKind, key), Create(DeploymentKind, KeyOf(newDply.meta))];
          err := client.CreateDeployment(newDply);
          return EmptyResult, err;
        }
        return EmptyResult, Some(dply.error);
      }

      var d := dply.value;
      if d.spec.replicas != size {
        d := d.(spec := d.spec.(replicas := size));
        assert DeploymentStep(c0, f0, req, cr).calls ==
          [Get(DemoKind, req), Get(ServiceKind, key), Get(DeploymentKind, key), Update(DeploymentKind, KeyOf(d.meta))];
        err := client.UpdateDeployment(d);
        return EmptyResult, err;
      }

      assert DeploymentStep(c0, f0, req, cr) == StatusStep(c0, f0, req, cr);
      var podList := client.ListPods(req.namespace, LabelForCR(cr.meta.name));
      assert client.calls == log + [Get(DemoKind, req), Get(ServiceKind, key), Get(DeploymentKind, key), ListCall(req, cr)];
      if podList.Failure? {
        return EmptyResult, Some(podList.error);
      }
      var podNames := GetPodNames(podList.value);
      if podNames != cr.status.nodes {
        assert StatusStep(c0, f0, req, cr).calls ==
          [Get(DemoKind, req), Get(ServiceKind, key), Get(DeploymentKind, key), ListCall(req, cr), UpdateStatus(key)];
        cr := cr.(status := DemoStatus(podNames));
        err := client.UpdateDemoStatus(cr);
        if err.Some? {
          return EmptyResult, err;
        }
      }
      return EmptyResult, None;
    }
  }
}
