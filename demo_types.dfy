/**
 * The custom resource `Demo` (api/v1/demo_types.go) and the object
 * metadata shared by every resource kind the controller touches.
 */
module DemoTypes {
  import opened Wrappers

  /** Go's `int32`: `DemoSpec.Size` and the deployment's replica count. */
  newtype int32 = x: int | -0x8000_0000 <= x < 0x8000_0000

  /** A namespace-qualified name, the key every object is stored under. */
  datatype ObjectKey = ObjectKey(namespace: string, name: string)

  /**
   * The part of `metav1.ObjectMeta` the controller reads or writes.
   * `controller` is the controller owner reference, reduced to the owner's key.
   */
  datatype ObjectMeta = ObjectMeta(
    name: string,
    namespace: string,
    labels: map<string, string>,
    controller: Option<ObjectKey>)

  function KeyOf(meta: ObjectMeta): ObjectKey {
    ObjectKey(meta.namespace, meta.name)
  }

  /** `DemoSpec`: the desired replica count; negative values are not rejected. */
  datatype DemoSpec = DemoSpec(size: int32)

  /** `DemoStatus`: the observed pod names, in the order they were listed. */
  datatype DemoStatus = DemoStatus(nodes: seq<string>)

  datatype Demo = Demo(meta: ObjectMeta, spec: DemoSpec, status: DemoStatus)
}
