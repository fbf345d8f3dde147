/**
 * What one reconciliation pass guarantees, and what repeated passes
 * converge to.
 */
module ReconcileProperties {
  import opened Wrappers
  import opened DemoTypes
  import opened KubeTypes
  import opened KubeUtils
  import opened ClusterStore
  import opened DemoController

  /** How far the children and status of the CR at `req` are from the desired state. */
  datatype Phase = NoDemo | NeedService | NeedDeployment | NeedReplicas | NeedStatus | Converged

  function PhaseOf(c: Cluster, req: ObjectKey): Phase {
    if req !in c.demos then NoDemo
    else
      var cr := c.demos[req];
      var k := ChildKey(cr);
      if k !in c.services then NeedService
      else if k !in c.deployments then NeedDeployment
      else if c.deployments[k].spec.replicas != cr.spec.size then NeedReplicas
      else if ObservedNodes(c, req, cr) != cr.status.nodes then NeedStatus
      else Converged
  }

  /** Nothing is left to do for `req`: the CR is gone, or its children and status are current. */
  predicate Quiescent(c: Cluster, req: ObjectKey) {
    PhaseOf(c, req) == NoDemo || PhaseOf(c, req) == Converged
  }

  /** The one write a pass issues in each phase, in the fixed order service, deployment, replicas, status. */
  function ExpectedWrite(c: Cluster, req: ObjectKey): Option<Call> {
    match PhaseOf(c, req)
    case NeedService => Some(Create(ServiceKind, ChildKey(c.demos[req])))
    case NeedDeployment => Some(Create(DeploymentKind, ChildKey(c.demos[req])))
    case NeedReplicas => Some(Update(DeploymentKind, ChildKey(c.demos[req])))
    case NeedStatus => Some(UpdateStatus(req))
    case _ => None
  }

  function LastCall(p: PassResult): Call
    requires |p.calls| >= 1
  {
    p.calls[|p.calls| - 1]
  }

  /**
   * The shape every pass has: it returns `ctrl.Result{}`, starts by reading
   * the CR, issues at most one write and only as its last call, commits
   * nothing when it fails, changes nothing without a write, and never
   * touches the pods.
   */
  predicate Shaped(c: Cluster, req: ObjectKey, p: PassResult) {
    p.result == EmptyResult &&
    |p.calls| >= 1 && p.calls[0] == Get(DemoKind, req) &&
    (forall i :: 0 <= i < |p.calls| - 1 ==> !p.calls[i].IsWrite()) &&
    (p.err.Some? ==> p.after == c) &&
    (p.after != c ==> LastCall(p).IsWrite()) &&
    p.after.pods == c.pods
  }

  lemma StatusStepShaped(c: Cluster, f: Faults, req: ObjectKey, cr: Demo)
    ensures Shaped(c, req, StatusStep(c, f, req, cr))
  {
  }

  lemma DeploymentStepShaped(c: Cluster, f: Faults, req: ObjectKey, cr: Demo)
    ensures Shaped(c, req, DeploymentStep(c, f, req, cr))
  {
    if FetchDeployment(c, f, ChildKey(cr)).Success? {
      StatusStepShaped(c, f, req, cr);
    }
  }

  lemma ServiceStepShaped(c: Cluster, f: Faults, req: ObjectKey, cr: Demo)
    ensures Shaped(c, req, ServiceStep(c, f, req, cr))
  {
    if FetchService(c, f, ChildKey(cr)).Success? {
      DeploymentStepShaped(c, f, req, cr);
    }
  }

  /** Every pass has the shape described by `Shaped`. */
  lemma PassShape(c: Cluster, f: Faults, req: ObjectKey)
    ensures Shaped(c, req, ReconcilePass(c, f, req))
  {
    if FetchDemo(c, f, req).Success? {
      ServiceStepShaped(c, f, req, FetchDemo(c, f, req).value);
    }
  }

  /** When the CR cannot be found the pass returns `ctrl.Result{}` and nil and writes nothing. */
  lemma DeletedDemoMeansNoWrites(c: Cluster, f: Faults, req: ObjectKey)
    requires req !in c.demos && Get(DemoKind, req) !in f
    ensures ReconcilePass(c, f, req) == PassResult(c, [Get(DemoKind, req)], EmptyResult, None)
  {
  }

  /**
   * Errors are the failed calls' own errors, returned unchanged, and a failed
   * pass commits nothing; with no failed call the pass returns nil.
   */
  lemma ErrorsArePassedThrough(c: Cluster, f: Faults, req: ObjectKey)
    requires WellKeyed(c)
    ensures var p := ReconcilePass(c, f, req);
      (p.err.Some? <==> LastCall(p) in f) &&
      (p.err.Some? ==> p.err == Some(Failed(f[LastCall(p)])) && p.after == c)
  {
    PassShape(c, f, req);
    if Get(DemoKind, req) !in f && req in c.demos {
      ServiceStepErrors(c, f, req, c.demos[req]);
    }
  }

  /** A pass's error is the fault of its last call, and there is one exactly when that call fails. */
  predicate ErrorFromLastCall(f: Faults, p: PassResult)
    requires |p.calls| >= 1
  {
    (p.err.Some? <==> LastCall(p) in f) &&
    (p.err.Some? ==> p.err == Some(Failed(f[LastCall(p)])))
  }

  lemma StatusStepErrors(c: Cluster, f: Faults, req: ObjectKey, cr: Demo)
    requires WellKeyed(c) && req in c.demos && cr == c.demos[req]
    ensures ErrorFromLastCall(f, StatusStep(c, f, req, cr))
  {
    assert KeyOf(cr.meta) == req;
  }

  lemma DeploymentStepErrors(c: Cluster, f: Faults, req: ObjectKey, cr: Demo)
    requires WellKeyed(c) && req in c.demos && cr == c.demos[req]
    ensures ErrorFromLastCall(f, DeploymentStep(c, f, req, cr))
  {
    var k := ChildKey(cr);
    if Get(DeploymentKind, k) !in f && k in c.deployments {
      assert KeyOf(c.deployments[k].meta) == k;
      if c.deployments[k].spec.replicas == cr.spec.size {
        StatusStepErrors(c, f, req, cr);
      }
    }
  }

  lemma ServiceStepErrors(c: Cluster, f: Faults, req: ObjectKey, cr: Demo)
    requires WellKeyed(c) && req in c.demos && cr == c.demos[req]
    ensures ErrorFromLastCall(f, ServiceStep(c, f, req, cr))
  {
    var k := ChildKey(cr);
    if Get(ServiceKind, k) !in f && k in c.services {
      DeploymentStepErrors(c, f, req, cr);
    }
  }

  /** An absent service is created as `createService(cr)`, and nothing else happens in that pass. */
  lemma ServiceCreatedWhenAbsent(c: Cluster, f: Faults, req: ObjectKey)
    requires req in c.demos && Get(DemoKind, req) !in f
    requires ChildKey(c.demos[req]) !in c.services && Get(ServiceKind, ChildKey(c.demos[req])) !in f
    ensures var cr, p := c.demos[req], ReconcilePass(c, f, req);
      var k := ChildKey(cr);
      p.calls == [Get(DemoKind, req), Get(ServiceKind, k), Create(ServiceKind, k)] &&
      p.result == EmptyResult &&
      (Create(ServiceKind, k) in f ==> p.after == c && p.err == Some(Failed(f[Create(ServiceKind, k)]))) &&
      (Create(ServiceKind, k) !in f ==> p.after == c.(services := c.services[k := BuildService(cr)]) && p.err == None)
  {
  }

  /** With the service in place, an absent deployment is created as `createDeployment(cr)`. */
  lemma DeploymentCreatedWhenAbsent(c: Cluster, f: Faults, req: ObjectKey)
    requires req in c.demos && Get(DemoKind, req) !in f
    requires ChildKey(c.demos[req]) in c.services && Get(ServiceKind, ChildKey(c.demos[req])) !in f
    requires ChildKey(c.demos[req]) !in c.deployments && Get(DeploymentKind, ChildKey(c.demos[req])) !in f
    ensures var cr, p := c.demos[req], ReconcilePass(c, f, req);
      var k := ChildKey(cr);
      p.calls == [Get(DemoKind, req), Get(ServiceKind, k), Get(DeploymentKind, k), Create(DeploymentKind, k)] &&
      p.result == EmptyResult &&
      (Create(DeploymentKind, k) in f ==> p.after == c && p.err == Some(Failed(f[Create(DeploymentKind, k)]))) &&
      (Create(DeploymentKind, k) !in f ==>
        p.after == c.(deployments := c.deployments[k := BuildDeployment(cr)]) && p.err == None &&
        p.after.deployments[k].spec.replicas == cr.spec.size)
  {
  }

  /** Replica drift is corrected by one update that sets `replicas` to `Size`; nothing else changes. */
  lemma ReplicaDriftCorrected(c: Cluster, f: Faults, req: ObjectKey)
    requires WellKeyed(c)
    requires req in c.demos && Get(DemoKind, req) !in f
    requires ChildKey(c.demos[req]) in c.services && Get(ServiceKind, ChildKey(c.demos[req])) !in f
    requires ChildKey(c.demos[req]) in c.deployments && Get(DeploymentKind, ChildKey(c.demos[req])) !in f
    requires c.deployments[ChildKey(c.demos[req])].spec.replicas != c.demos[req].spec.size
    ensures var cr, p := c.demos[req], ReconcilePass(c, f, req);
      var k := ChildKey(cr);
      var d := c.deployments[k];
      p.calls == [Get(DemoKind, req), Get(ServiceKind, k), Get(DeploymentKind, k), Update(DeploymentKind, k)] &&
      p.result == EmptyResult &&
      (Update(DeploymentKind, k) in f ==> p.after == c && p.err == Some(Failed(f[Update(DeploymentKind, k)]))) &&
      (Update(DeploymentKind, k) !in f ==>
        p.after == c.(deployments := c.deployments[k := d.(spec := d.spec.(replicas := cr.spec.size))]) &&
        p.err == None)
  {
    var k := ChildKey(c.demos[req]);
    assert KeyOf(c.deployments[k].meta) == k;
  }

  /**
   * With the children in place, the status is rewritten exactly when the
   * listed pod names differ from it, and afterwards equals them.
   */
  lemma StatusTracksPods(c: Cluster, f: Faults, req: ObjectKey)
    requires WellKeyed(c)
    requires req in c.demos && Get(DemoKind, req) !in f
    requires ChildKey(c.demos[req]) in c.services && Get(ServiceKind, ChildKey(c.demos[req])) !in f
    requires ChildKey(c.demos[req]) in c.deployments && Get(DeploymentKind, ChildKey(c.demos[req])) !in f
    requires c.deployments[ChildKey(c.demos[req])].spec.replicas == c.demos[req].spec.size
    requires ListCall(req, c.demos[req]) !in f
    ensures var cr, p := c.demos[req], ReconcilePass(c, f, req);
      var k, names := ChildKey(cr), ObservedNodes(c, req, cr);
      var fetches := [Get(DemoKind, req), Get(ServiceKind, k), Get(DeploymentKind, k), ListCall(req, cr)];
      p.result == EmptyResult &&
      (names == cr.status.nodes ==> p.after == c && p.calls == fetches && p.err == None) &&
      (names != cr.status.nodes ==> p.calls == fetches + [UpdateStatus(req)]) &&
      (names != cr.status.nodes && UpdateStatus(req) in f ==> p.after == c && p.err == Some(Failed(f[UpdateStatus(req)]))) &&
      (names != cr.status.nodes && UpdateStatus(req) !in f ==>
        p.after == c.(demos := c.demos[req := cr.(status := DemoStatus(names))]) &&
        p.after.demos[req].status.nodes == names && p.err == None)
  {
    assert KeyOf(c.demos[req].meta) == req;
  }

  /** The observed pod names are those of the pods in the request namespace labelled `app=<cr name>`. */
  lemma ObservedNodesAreSelectedPods(c: Cluster, req: ObjectKey, cr: Demo)
    ensures forall p :: (p in c.pods && p.meta.namespace == req.namespace &&
      "app" in p.meta.labels && p.meta.labels["app"] == cr.meta.name) ==> p.meta.name in ObservedNodes(c, req, cr)
    ensures forall n :: n in ObservedNodes(c, req, cr) ==>
      (exists p :: p in c.pods && p.meta.namespace == req.namespace &&
        "app" in p.meta.labels && p.meta.labels["app"] == cr.meta.name && p.meta.name == n)
  {
    var sel := LabelForCR(cr.meta.name);
    var pods := MatchingPods(c.pods, req.namespace, sel);
    MatchingPodsMembers(c.pods, req.namespace, sel);
    PodNamesAt(pods);
    forall p | p in c.pods && p.meta.namespace == req.namespace &&
      "app" in p.meta.labels && p.meta.labels["app"] == cr.meta.name
      ensures p.meta.name in ObservedNodes(c, req, cr)
    {
      assert Selects(sel, p.meta.labels);
      var i :| 0 <= i < |pods| && pods[i] == p;
      assert ObservedNodes(c, req, cr)[i] == p.meta.name;
    }
    forall n | n in ObservedNodes(c, req, cr)
      ensures exists p :: (p in c.pods && p.meta.namespace == req.namespace &&
        "app" in p.meta.labels && p.meta.labels["app"] == cr.meta.name && p.meta.name == n)
    {
      var i :| 0 <= i < |pods| && ObservedNodes(c, req, cr)[i] == n;
      assert pods[i] in pods;
      assert "app" in sel;
    }
  }

  /** The cluster after the write that the phase of `req` calls for has succeeded. */
  function Effect(c: Cluster, req: ObjectKey): Cluster {
    match PhaseOf(c, req)
    case NeedService =>
      var cr := c.demos[req];
      c.(services := c.services[ChildKey(cr) := BuildService(cr)])
    case NeedDeployment =>
      var cr := c.demos[req];
      c.(deployments := c.deployments[ChildKey(cr) := BuildDeployment(cr)])
    case NeedReplicas =>
      var cr := c.demos[req];
      var d := c.deployments[ChildKey(cr)];
      c.(deployments := c.deployments[ChildKey(cr) := d.(spec := d.spec.(replicas := cr.spec.size))])
    case NeedStatus =>
      var cr := c.demos[req];
      c.(demos := c.demos[req := cr.(status := DemoStatus(ObservedNodes(c, req, cr)))])
    case _ => c
  }

  /**
   * A pass follows the phase of `c`: it leaves the cluster as it is or
   * applies `Effect`, whatever it writes is the phase's expected write, and
   * without failures it always makes that write.
   */
  predicate FollowsPhase(c: Cluster, f: Faults, req: ObjectKey, p: PassResult)
    requires |p.calls| >= 1
  {
    (p.after == c || p.after == Effect(c, req)) &&
    (LastCall(p).IsWrite() ==> ExpectedWrite(c, req) == Some(LastCall(p))) &&
    (f == map[] ==>
      p.after == Effect(c, req) && p.err == None &&
      (LastCall(p).IsWrite() <==> ExpectedWrite(c, req).Some?))
  }

  lemma NoDemoPhase(c: Cluster, f: Faults, req: ObjectKey)
    requires PhaseOf(c, req) == NoDemo
    ensures FollowsPhase(c, f, req, ReconcilePass(c, f, req))
  {
  }

  lemma NeedServicePhase(c: Cluster, f: Faults, req: ObjectKey)
    requires WellKeyed(c) && PhaseOf(c, req) == NeedService
    ensures FollowsPhase(c, f, req, ReconcilePass(c, f, req))
  {
    if Get(DemoKind, req) !in f && Get(ServiceKind, ChildKey(c.demos[req])) !in f {
      ServiceCreatedWhenAbsent(c, f, req);
    }
  }

  lemma NeedDeploymentPhase(c: Cluster, f: Faults, req: ObjectKey)
    requires WellKeyed(c) && PhaseOf(c, req) == NeedDeployment
    ensures FollowsPhase(c, f, req, ReconcilePass(c, f, req))
  {
    var k := ChildKey(c.demos[req]);
    if Get(DemoKind, req) !in f && Get(ServiceKind, k) !in f && Get(DeploymentKind, k) !in f {
      DeploymentCreatedWhenAbsent(c, f, req);
    }
  }

  lemma NeedReplicasPhase(c: Cluster, f: Faults, req: ObjectKey)
    requires WellKeyed(c) && PhaseOf(c, req) == NeedReplicas
    ensures FollowsPhase(c, f, req, ReconcilePass(c, f, req))
  {
    var k := ChildKey(c.demos[req]);
    if Get(DemoKind, req) !in f && Get(ServiceKind, k) !in f && Get(DeploymentKind, k) !in f {
      ReplicaDriftCorrected(c, f, req);
    }
  }

  lemma StatusPhase(c: Cluster, f: Faults, req: ObjectKey)
    requires WellKeyed(c) && (PhaseOf(c, req) == NeedStatus || PhaseOf(c, req) == Converged)
    ensures FollowsPhase(c, f, req, ReconcilePass(c, f, req))
  {
    var cr := c.demos[req];
    var k := ChildKey(cr);
    if Get(DemoKind, req) !in f && Get(ServiceKind, k) !in f && Get(DeploymentKind, k) !in f &&
       ListCall(req, cr) !in f {
      StatusTracksPods(c, f, req);
    }
  }

  /**
   * The writes come in a fixed order: a pass either leaves the cluster as
   * it is or performs exactly the write its phase calls for, and whatever
   * it writes is that write. Without failures the write is always made.
   */
  lemma PassFollowsPhase(c: Cluster, f: Faults, req: ObjectKey)
    requires WellKeyed(c)
    ensures FollowsPhase(c, f, req, ReconcilePass(c, f, req))
  {
    match PhaseOf(c, req)
    case NoDemo => NoDemoPhase(c, f, req);
    case NeedService => NeedServicePhase(c, f, req);
    case NeedDeployment => NeedDeploymentPhase(c, f, req);
    case NeedReplicas => NeedReplicasPhase(c, f, req);
    case NeedStatus => StatusPhase(c, f, req);
    case Converged => StatusPhase(c, f, req);
  }

  /**
   * A service that exists is only read: no pass replaces or updates it, and
   * the only service write a pass can issue (its last call, by `PassShape`)
   * creates an absent one.
   */
  lemma ExistingServiceNeverChanged(c: Cluster, f: Faults, req: ObjectKey)
    requires WellKeyed(c)
    ensures var p := ReconcilePass(c, f, req);
      (forall k :: k in c.services ==> k in p.after.services && p.after.services[k] == c.services[k]) &&
      !(LastCall(p).Update? && LastCall(p).kind == ServiceKind) &&
      (LastCall(p).Create? && LastCall(p).kind == ServiceKind ==> LastCall(p).key !in c.services)
  {
    PassFollowsPhase(c, f, req);
    EffectOnServices(c, req);
  }

  /** The phase's write adds a missing service at most; stored services are kept. */
  lemma EffectOnServices(c: Cluster, req: ObjectKey)
    ensures forall k :: k in c.services ==> k in Effect(c, req).services && Effect(c, req).services[k] == c.services[k]
    ensures (ExpectedWrite(c, req).Some? && !ExpectedWrite(c, req).value.UpdateStatus? &&
      ExpectedWrite(c, req).value.kind == ServiceKind) ==> ExpectedWrite(c, req).value.key !in c.services
  {
    match PhaseOf(c, req)
    case NeedService =>
    case _ =>
  }

  /** Idempotence: a quiescent cluster is left exactly as it is, whatever fails. */
  lemma QuiescentPassWritesNothing(c: Cluster, f: Faults, req: ObjectKey)
    requires Quiescent(c, req)
    ensures var p := ReconcilePass(c, f, req);
      p.after == c && NoWrites(p.calls) && p.result == EmptyResult &&
      (f == map[] ==> p.err == None)
  {
    PassShape(c, f, req);
    if req in c.demos && Get(DemoKind, req) !in f {
      var cr := c.demos[req];
      var k := ChildKey(cr);
      assert ReconcilePass(c, f, req) == ServiceStep(c, f, req, cr);
      if Get(ServiceKind, k) !in f {
        assert ServiceStep(c, f, req, cr) == DeploymentStep(c, f, req, cr);
        if Get(DeploymentKind, k) !in f {
          assert DeploymentStep(c, f, req, cr) == StatusStep(c, f, req, cr);
        }
      }
    }
  }

  /** A failure-free pass writes nothing exactly when the cluster is quiescent. */
  lemma QuiescentIffNoWrites(c: Cluster, req: ObjectKey)
    requires WellKeyed(c)
    ensures Quiescent(c, req) <==> NoWrites(ReconcilePass(c, map[], req).calls)
  {
    var p := ReconcilePass(c, map[], req);
    PassFollowsPhase(c, map[], req);
    if Quiescent(c, req) {
      QuiescentPassWritesNothing(c, map[], req);
    } else {
      assert LastCall(p).IsWrite();
    }
  }

  lemma EffectPreservesWellKeyed(c: Cluster, req: ObjectKey)
    requires WellKeyed(c)
    ensures WellKeyed(Effect(c, req))
  {
    if req in c.demos {
      assert KeyOf(c.demos[req].meta) == req;
    }
  }

  /** Objects stay stored under their own name and namespace. */
  lemma PassPreservesWellKeyed(c: Cluster, f: Faults, req: ObjectKey)
    requires WellKeyed(c)
    ensures WellKeyed(ReconcilePass(c, f, req).after)
  {
    PassFollowsPhase(c, f, req);
    EffectPreservesWellKeyed(c, req);
  }

  /** The number of writes still outstanding for `req`: service, deployment replicas, status. */
  function Pending(c: Cluster, req: ObjectKey): (n: nat)
    ensures n <= 3
    ensures n == 0 <==> Quiescent(c, req)
  {
    if req !in c.demos then 0
    else
      var cr := c.demos[req];
      var k := ChildKey(cr);
      (if k !in c.services then 1 else 0) +
      (if k !in c.deployments || c.deployments[k].spec.replicas != cr.spec.size then 1 else 0) +
      (if ObservedNodes(c, req, cr) != cr.status.nodes then 1 else 0)
  }

  /** A failure-free pass on a cluster with work left does exactly one unit of it. */
  lemma PassReducesPending(c: Cluster, req: ObjectKey)
    requires WellKeyed(c) && !Quiescent(c, req)
    ensures Pending(ReconcilePass(c, map[], req).after, req) == Pending(c, req) - 1
  {
    PassFollowsPhase(c, map[], req);
    var cr := c.demos[req];
    assert KeyOf(cr.meta) == req;
  }

  /** `n` failure-free passes in a row. */
  function Iterate(c: Cluster, req: ObjectKey, n: nat): Cluster
    decreases n
  {
    if n == 0 then c else Iterate(ReconcilePass(c, map[], req).after, req, n - 1)
  }

  /** Repeated failure-free passes reach quiescence once they outnumber the pending writes. */
  lemma {:induction false} Converges(c: Cluster, req: ObjectKey, n: nat)
    requires WellKeyed(c) && Pending(c, req) <= n
    ensures Quiescent(Iterate(c, req, n), req)
    decreases n
  {
    if n > 0 {
      var next := ReconcilePass(c, map[], req).after;
      PassPreservesWellKeyed(c, map[], req);
      if Quiescent(c, req) {
        QuiescentPassWritesNothing(c, map[], req);
      } else {
        PassReducesPending(c, req);
      }
      Converges(next, req, n - 1);
    }
  }

  /** From any well-keyed cluster, the fourth failure-free pass writes nothing. */
  lemma FourthPassWritesNothing(c: Cluster, req: ObjectKey)
    requires WellKeyed(c)
    ensures Quiescent(Iterate(c, req, 3), req)
    ensures NoWrites(ReconcilePass(Iterate(c, req, 3), map[], req).calls)
  {
    Converges(c, req, 3);
    QuiescentPassWritesNothing(Iterate(c, req, 3), map[], req);
  }

  /**
   * Starting with neither child, failure-free passes create the service,
   * then the deployment with `Size` replicas, then write the observed pod
   * names, after which nothing is left to do.
   */
  lemma FromNoChildren(c: Cluster, req: ObjectKey)
    requires WellKeyed(c) && req in c.demos
    requires ChildKey(c.demos[req]) !in c.services && ChildKey(c.demos[req]) !in c.deployments
    ensures var cr, k := c.demos[req], ChildKey(c.demos[req]);
      var c1, c2, c3 := Iterate(c, req, 1), Iterate(c, req, 2), Iterate(c, req, 3);
      c1 == c.(services := c.services[k := BuildService(cr)]) &&
      c2 == c1.(deployments := c1.deployments[k := BuildDeployment(cr)]) &&
      c2.deployments[k].spec.replicas == cr.spec.size &&
      c3.demos[req].status.nodes == ObservedNodes(c, req, cr) &&
      Quiescent(c3, req)
  {
    var cr, k := c.demos[req], ChildKey(c.demos[req]);
    var c1 := ReconcilePass(c, map[], req).after;
    PassFollowsPhase(c, map[], req);
    PassPreservesWellKeyed(c, map[], req);
    assert Iterate(c, req, 1) == c1;
    var c2 := ReconcilePass(c1, map[], req).after;
    PassFollowsPhase(c1, map[], req);
    PassPreservesWellKeyed(c1, map[], req);
    assert Iterate(c, req, 2) == Iterate(c1, req, 1) == c2;
    var c3 := ReconcilePass(c2, map[], req).after;
    assert ObservedNodes(c2, req, cr) == ObservedNodes(c, req, cr);
    PassFollowsPhase(c2, map[], req);
    assert Iterate(c, req, 3) == Iterate(c2, req, 1) == c3;
    if PhaseOf(c2, req) == NeedStatus {
      assert c3.demos[req] == cr.(status := DemoStatus(ObservedNodes(c, req, cr)));
    }
  }
}
