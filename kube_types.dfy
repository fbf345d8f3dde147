/**
 * The fields of the Kubernetes `Service`, `Deployment` and `Pod` kinds that
 * the controller builds or reads.
 */
module KubeTypes {
  import opened DemoTypes

  datatype Protocol = TCP | UDP | SCTP

  datatype ServiceType = ClusterIP | NodePort | LoadBalancer | ExternalName

  datatype ServicePort = ServicePort(protocol: Protocol, port: int32, targetPort: int32)

  datatype ServiceSpec = ServiceSpec(
    serviceType: ServiceType,
    selector: map<string, string>,
    ports: seq<ServicePort>)

  datatype Service = Service(meta: ObjectMeta, spec: ServiceSpec)

  datatype ContainerPort = ContainerPort(containerPort: int32, protocol: Protocol)

  datatype Container = Container(name: string, image: string, ports: seq<ContainerPort>)

  /** The pod template: the labels stamped on every pod and its containers. */
  datatype PodTemplate = PodTemplate(labels: map<string, string>, containers: seq<Container>)

  /** `DeploymentSpec`; `replicas` is never nil once stored, so it is not optional here. */
  datatype DeploymentSpec = DeploymentSpec(
    replicas: int32,
    matchLabels: map<string, string>,
    template: PodTemplate)

  datatype Deployment = Deployment(meta: ObjectMeta, spec: DeploymentSpec)

  datatype Pod = Pod(meta: ObjectMeta)

  /** A label selector given as a map matches when every pair in it is among the labels. */
  predicate Selects(selector: map<string, string>, labels: map<string, string>) {
    forall k :: k in selector ==> k in labels && labels[k] == selector[k]
  }
}
