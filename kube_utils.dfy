/**
 * The child-resource builders and the pod-name projection of
 * controllers/kube-utils.go.
 */
module KubeUtils {
  import opened Wrappers
  import opened DemoTypes
  import opened KubeTypes

  /** `getLabelForCR`: the label set that ties a CR's pods to it. */
  function LabelForCR(crName: string): (selector: map<string, string>)
    ensures selector.Keys == {"app"} && selector["app"] == crName
  {
    map["app" := crName]
  }

  /** Distinct CR names give distinct labels, so one CR never selects another's pods. */
  lemma LabelForCRInjective(a: string, b: string)
    requires LabelForCR(a) == LabelForCR(b)
    ensures a == b
  {
    assert LabelForCR(a)["app"] == a;
  }

  /** `createService`: a ClusterIP service on TCP port 80, owned by the CR. */
  function BuildService(d: Demo): (s: Service)
    ensures KeyOf(s.meta) == KeyOf(d.meta)
    ensures s.meta.controller == Some(KeyOf(d.meta))
    ensures s.spec.serviceType == ClusterIP
    ensures s.spec.selector == LabelForCR(d.meta.name)
    ensures s.spec.ports == [ServicePort(TCP, 80, 80)]
  {
    Service(
      ObjectMeta(d.meta.name, d.meta.namespace, map[], Some(KeyOf(d.meta))),
      ServiceSpec(ClusterIP, LabelForCR(d.meta.name), [ServicePort(TCP, 80, 80)]))
  }

  /** `createDeployment`: `Size` replicas of one nginx container, owned by the CR. */
  function BuildDeployment(d: Demo): (dp: Deployment)
    ensures KeyOf(dp.meta) == KeyOf(d.meta)
    ensures dp.meta.controller == Some(KeyOf(d.meta))
    ensures dp.spec.replicas == d.spec.size
    ensures dp.spec.matchLabels == LabelForCR(d.meta.name)
    ensures dp.spec.template.labels == LabelForCR(d.meta.name)
    ensures dp.spec.template.containers == [Container("nginx", "nginx:latest", [ContainerPort(80, TCP)])]
  {
    var labels := LabelForCR(d.meta.name);
    Deployment(
      ObjectMeta(d.meta.name, d.meta.namespace, map[], Some(KeyOf(d.meta))),
      DeploymentSpec(d.spec.size, labels,
        PodTemplate(labels, [Container("nginx", "nginx:latest", [ContainerPort(80, TCP)])])))
  }

  /**
   * The service routes to exactly the pods the deployment creates: its
   * selector is the deployment's selector and its pod-template labels, and
   * it selects every pod carrying those labels.
   */
  lemma ServiceSelectsDeploymentPods(d: Demo, podLabels: map<string, string>)
    requires Selects(BuildDeployment(d).spec.template.labels, podLabels)
    ensures BuildService(d).spec.selector == BuildDeployment(d).spec.matchLabels
    ensures BuildService(d).spec.selector == BuildDeployment(d).spec.template.labels
    ensures Selects(BuildService(d).spec.selector, podLabels)
  {
  }

  /**
   * Both builders depend on the CR only through its name, namespace and
   * size; the owner reference always points back at the input CR.
   */
  lemma BuildersDependOnlyOnIdentityAndSize(d1: Demo, d2: Demo)
    requires KeyOf(d1.meta) == KeyOf(d2.meta) && d1.spec.size == d2.spec.size
    ensures BuildService(d1) == BuildService(d2)
    ensures BuildDeployment(d1) == BuildDeployment(d2)
  {
  }

  /** The names of `pods`, built by appending one name per pod. */
  function PodNames(pods: seq<Pod>): seq<string> {
    if pods == [] then [] else PodNames(pods[..|pods| - 1]) + [pods[|pods| - 1].meta.name]
  }

  /** `getPodNames` keeps one name per pod, in list order; an empty list gives no names. */
  lemma {:induction false} PodNamesAt(pods: seq<Pod>)
    ensures |PodNames(pods)| == |pods|
    ensures forall i :: 0 <= i < |pods| ==> PodNames(pods)[i] == pods[i].meta.name
  {
    if pods != [] {
      PodNamesAt(pods[..|pods| - 1]);
    }
  }

  /** `getPodNames`: the loop that appends each pod's name in list order. */
  method GetPodNames(pods: seq<Pod>) returns (names: seq<string>)
    ensures names == PodNames(pods)
  {
    names := [];
    for i := 0 to |pods|
      invariant names == PodNames(pods[..i])
    {
      assert pods[..i + 1][..i] == pods[..i];
      names := names + [pods[i].meta.name];
    }
    assert pods[..|pods|] == pods;
  }
}
