# demo-operator reconciliation, modelled in Dafny

`demo-operator` is a small Kubernetes operator. A user creates a `Demo`
custom resource (CR) with a `spec.size`. The controller makes sure that the
CR has two children:

- a `Service` with the CR's name and namespace;
- a `Deployment` with the CR's name and namespace, running `spec.size`
  nginx replicas.

It also copies the names of the CR's pods into `status.nodes`.

Each reconciliation pass reads the CR, then its service, then its
deployment, then its pods. It performs at most one write and then returns:

1. create the service;
2. otherwise create the deployment;
3. otherwise set the deployment's replicas back to `size`;
4. otherwise rewrite `status.nodes`.

This project models that pass and the builders it uses, and proves what a
pass does in each situation. It also proves that repeated passes converge.

Files:

- `wrappers.dfy`: `Option` and `Result`.
- `demo_types.dfy`: the `Demo` CR, with `DemoSpec.Size` as a Go `int32` and
  `DemoStatus.Nodes` as a sequence of strings. It also holds the object
  metadata shared by all kinds. The owner reference is reduced to the
  owner's key.
- `kube_types.dfy`: the fields of `Service`, `Deployment` and `Pod` that
  the controller builds or reads.
- `kube_utils.dfy`: `getLabelForCR`, `createService`, `createDeployment`
  and `getPodNames`. `getPodNames` is modelled twice:
  - as the loop method `GetPodNames`;
  - as the function `PodNames`, which the specification of a pass uses.
- `cluster_store.dfy`: the cluster as a value, and the semantics of each
  client call. The cluster holds keyed maps of CRs, services and
  deployments, plus the pod list. `Client` is a class whose methods issue
  `Get`, `Create`, `Update`, `Status().Update` and `List`. Each call is
  recorded in a call log. Any call may fail: a fault plan (`Faults`) maps a
  call to the failure it returns.
- `demo_controller.dfy`: `ReconcilePass` specifies one pass as a function of
  the cluster, the fault plan and the request key.
  `DemoReconciler.Reconcile` issues the same steps imperatively through the
  client, with an early return after each write or error. It is proved to
  leave the same cluster, call log and return values as `ReconcilePass`.
- `reconcile_props.dfy`: the properties of a pass. These cover:
  - deletion;
  - error propagation;
  - each write, and what it leaves unchanged;
  - the fixed order of the writes;
  - idempotence;
  - convergence: at most three writes, so a fourth failure-free pass writes
    nothing.

The model follows the code as written:

- After creating a child, or after fixing the replica count, a pass returns
  `ctrl.Result{}` with a nil error. It does not return a delayed requeue.
- `status.nodes` is compared with the listed pod names as an ordered
  sequence (`reflect.DeepEqual`). It is not compared as a set.
- A negative `Size` is not rejected. No `Invalid` condition is recorded.
- The pods are listed in the request's namespace with the label
  `app=<CR name>`.

Most pass properties assume `WellKeyed`: every stored object sits under its
own name and namespace. The API server guarantees this, and a pass
preserves it (`PassPreservesWellKeyed`).

## Model

| member | source | states |
|---|---|---|
| `KubeUtils.LabelForCR` | controllers/kube-utils.go:14-16 | the label map has exactly the one key `app`, mapped to the CR name |
| `KubeUtils.LabelForCRInjective` | controllers/kube-utils.go:14-16 | two CR names with equal label maps are equal, so one CR never selects another's pods |
| `KubeUtils.BuildService` | controllers/kube-utils.go:19-45 | the service has the CR's name and namespace and the CR as controller owner; it is of type ClusterIP; its selector is `getLabelForCR(name)`; it has exactly one port, TCP 80 targeting 80 |
| `KubeUtils.BuildDeployment` | controllers/kube-utils.go:48-87 | the deployment has the CR's name and namespace and the CR as controller owner; replicas equal `Size`; selector and pod-template labels are `getLabelForCR(name)`; it has one container `nginx`, image `nginx:latest`, on TCP port 80 |
| `KubeUtils.ServiceSelectsDeploymentPods` | controllers/kube-utils.go:21-66 | the service selector equals both the deployment's selector and its pod-template labels, and selects every pod carrying those labels |
| `KubeUtils.BuildersDependOnlyOnIdentityAndSize` | controllers/kube-utils.go:19-87 | CRs with equal name, namespace and size get identical services and deployments, including the owner reference |
| `KubeUtils.PodNamesAt` | controllers/kube-utils.go:90-96 | the name list has one entry per pod, and entry i is pod i's name; an empty pod list gives an empty list |
| `KubeUtils.GetPodNames` | controllers/kube-utils.go:90-96 | the append loop yields exactly `PodNames(pods)` |
| `ClusterStore.MatchingPodsMembers` | controllers/demo_controller.go:154-161 | the list returns exactly the stored pods in the namespace whose labels the selector matches, and never more pods than are stored |
| `ClusterStore.Client.GetDemo` | controllers/demo_controller.go:69 | the CR read returns the stored CR, NotFound, or the injected failure; only the call log grows |
| `ClusterStore.Client.GetService` | controllers/demo_controller.go:85-88 | the service read returns the stored service, NotFound, or the injected failure; only the call log grows |
| `ClusterStore.Client.GetDeployment` | controllers/demo_controller.go:111-114 | the deployment read returns the stored deployment, NotFound, or the injected failure; only the call log grows |
| `ClusterStore.Client.CreateService` | controllers/demo_controller.go:94 | the create stores the service under its key, or returns AlreadyExists or the injected failure and leaves the cluster unchanged |
| `ClusterStore.Client.CreateDeployment` | controllers/demo_controller.go:120 | the create stores the deployment under its key, or returns AlreadyExists or the injected failure and leaves the cluster unchanged |
| `ClusterStore.Client.UpdateDeployment` | controllers/demo_controller.go:142 | the update replaces the stored deployment, or returns NotFound or the injected failure and leaves the cluster unchanged |
| `ClusterStore.Client.UpdateDemoStatus` | controllers/demo_controller.go:173 | the status update replaces only the stored CR's status, or returns NotFound or the injected failure and leaves the cluster unchanged |
| `ClusterStore.Client.ListPods` | controllers/demo_controller.go:161 | the list returns the matching pods or the injected failure; only the call log grows |
| `DemoController.ReconcilePass` | controllers/demo_controller.go:61-181 | computes lines 61-181: reads the CR, returns nil when it is not found and any other read error unchanged, and otherwise runs the service step; its promises are proved in `PassShape`, `DeletedDemoMeansNoWrites`, `ErrorsArePassedThrough`, `PassFollowsPhase` and `Converges` |
| `DemoController.ServiceStep` | controllers/demo_controller.go:84-108 | computes lines 84-108: reads the service, creates `createService(cr)` when it is absent, returns any other read error, and otherwise goes on to the deployment step; its promises are proved in `ServiceCreatedWhenAbsent`, `ExistingServiceNeverChanged` and `ErrorsArePassedThrough` |
| `DemoController.DeploymentStep` | controllers/demo_controller.go:110-151 | computes lines 110-151: reads the deployment, creates `createDeployment(cr)` when it is absent, returns any other read error, sets drifted replicas back to `Size`, and otherwise goes on to the status step; its promises are proved in `DeploymentCreatedWhenAbsent`, `ReplicaDriftCorrected` and `ErrorsArePassedThrough` |
| `DemoController.StatusStep` | controllers/demo_controller.go:153-180 | computes lines 153-180: lists the pods in the request namespace labelled `app=<CR name>` and rewrites `status.nodes` when the names differ as a sequence; its promises are proved in `StatusTracksPods`, `ObservedNodesAreSelectedPods` and `ErrorsArePassedThrough` |
| `DemoController.DemoReconciler.Reconcile` | controllers/demo_controller.go:61-181 | the step-by-step method leaves exactly the cluster, call log, result and error that `ReconcilePass` specifies; the fault plan is untouched |
| `ReconcileProperties.PassShape` | controllers/demo_controller.go:61-181 | every pass returns `ctrl.Result{}` and reads the CR first; it issues at most one write, always as its last call; a failed pass commits nothing; nothing changes without a write; pods are never touched |
| `ReconcileProperties.DeletedDemoMeansNoWrites` | controllers/demo_controller.go:69-76 | if the CR is not found, the pass issues only the CR read, changes nothing, and returns an empty result and nil |
| `ReconcileProperties.ErrorsArePassedThrough` | controllers/demo_controller.go:61-181 | a pass returns an error exactly when its last call failed; the error is that call's failure, unchanged; and the cluster is left as it was |
| `ReconcileProperties.ServiceCreatedWhenAbsent` | controllers/demo_controller.go:90-104 | an absent service is created as exactly `createService(cr)`, as the last of three calls; nothing else changes; a failed create is returned with no write |
| `ReconcileProperties.ExistingServiceNeverChanged` | controllers/demo_controller.go:85-108 | stored services are never replaced or updated; the only service write a pass can issue creates a service that is absent |
| `ReconcileProperties.DeploymentCreatedWhenAbsent` | controllers/demo_controller.go:111-129 | with the service present, an absent deployment is created as exactly `createDeployment(cr)` with replicas = `Size`; nothing else changes; a failed create is returned with no write |
| `ReconcileProperties.ReplicaDriftCorrected` | controllers/demo_controller.go:136-151 | a drifted deployment gets one update that sets replicas to `Size` and changes nothing else; a failed update is returned with no write |
| `ReconcileProperties.StatusTracksPods` | controllers/demo_controller.go:154-178 | with both children current, the status is rewritten only when the listed pod names differ from it as a sequence; afterwards it equals them exactly; otherwise nothing is written |
| `ReconcileProperties.ObservedNodesAreSelectedPods` | controllers/demo_controller.go:154-167 | the names written to the status are exactly the names of the pods in the request namespace labelled `app=<CR name>` |
| `ReconcileProperties.PassFollowsPhase` | controllers/demo_controller.go:84-181 | writes come in the fixed order service, deployment, replicas, status: a pass either changes nothing or makes exactly the write its phase calls for, and makes it whenever nothing fails |
| `ReconcileProperties.QuiescentPassWritesNothing` | controllers/demo_controller.go:136-180 | idempotence: when the service exists, replicas equal `Size` and the status equals the pod names, a pass writes nothing and returns an empty result, whatever fails |
| `ReconcileProperties.QuiescentIffNoWrites` | controllers/demo_controller.go:136-180 | a failure-free pass writes nothing exactly when the cluster is quiescent |
| `ReconcileProperties.PassPreservesWellKeyed` | controllers/demo_controller.go:84-178 | the objects a pass creates or updates stay stored under their own name and namespace |
| `ReconcileProperties.Pending` | controllers/demo_controller.go:84-178 | the outstanding writes number at most three, and none are outstanding exactly at quiescence |
| `ReconcileProperties.PassReducesPending` | controllers/demo_controller.go:84-178 | a failure-free pass with work left completes exactly one outstanding write |
| `ReconcileProperties.Converges` | controllers/demo_controller.go:61-181 | repeated failure-free passes reach quiescence once their number reaches the outstanding writes |
| `ReconcileProperties.FourthPassWritesNothing` | controllers/demo_controller.go:61-181 | from any cluster, the fourth failure-free pass makes no write |
| `ReconcileProperties.FromNoChildren` | controllers/demo_controller.go:84-178 | with neither child present: pass 1 creates exactly the service; pass 2 creates exactly the deployment with `Size` replicas; pass 3 leaves the status equal to the observed pod names, and the cluster quiescent |

## Left out

- `SetupWithManager` and the watches on the CR and its owned children
  (controllers/demo_controller.go:50-59) are event wiring. They are not
  modelled.
- The work queue, worker parallelism and per-key serialisation concern
  concurrency, not the pass itself. Each pass is modelled alone on a
  cluster that nothing else changes during the pass.
- The API server is modelled as a value: keyed maps plus the pod list.
  - Version tokens and conflict detection are not modelled. A conflict
    appears only as an injected failure.
  - The client's read cache is not modelled, so there are no stale reads.
  - `List` (controllers/demo_controller.go:161) is modelled as returning
    the matching pods in one fixed order, the order of the model's pod
    sequence, on every pass. The real client answers from its informer
    cache, which promises no order. The status comparison at line 170 is
    order-sensitive, so a listing that comes back reordered makes the
    program rewrite `status.nodes` even though no pod changed.
    `QuiescentPassWritesNothing`, `Converges`, `FourthPassWritesNothing`
    and `FromNoChildren` are therefore proved only under a stable list
    order.
- The store does not validate the objects written to it. The real API
  server rejects a deployment whose `spec.replicas` is negative, and
  `DemoSpec.Size` (api/v1/demo_types.go:35) has no minimum. When
  `Size < 0`, the create at controllers/demo_controller.go:120, or the
  update at line 142, fails on every real pass, and no pass gets past the
  deployment step. The model's store accepts the write instead.
  `Converges`, `FourthPassWritesNothing` and `FromNoChildren` therefore
  describe real clusters only when `Size >= 0`.
- `ctrl.SetControllerReference` and the `Scheme` are foreign calls. They
  are modelled as setting the child's controller owner to the CR's key. The
  source ignores the error that call returns, so the model has none.
- Garbage collection of children through owner references happens in the
  API server. It is not modelled, so deleting a CR leaves its children in
  the model's cluster.
- Logging (`logger.Info`, `logger.Error`) and the RBAC annotations are
  diagnostics and manifests. They are not modelled.
- JSON tags, `SchemeBuilder.Register` and `DemoList` in
  api/v1/demo_types.go concern serialisation and scheme registration. They
  are not modelled.
- `reflect.DeepEqual` tells a nil slice from an empty one. The model's
  `seq<string>` does not, so nil and empty `status.nodes` count as equal.
- `Deployment.Spec.Replicas` is a pointer in Go. It is modelled as a plain
  `int32`, because the API server defaults it and the pass dereferences it
  unconditionally. The nil-pointer panic is not modelled.
- `Size` is a Go `int32`. The pass only copies and compares it and does no
  arithmetic on it, so there is no wrap-around to model.
- The fault plan keys a failure by the call it hits. A pass issues each call
  at most once, so this covers every combination of failing calls within
  one pass. Convergence is stated for failure-free passes only.
