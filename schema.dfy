/** Group/version/resource identities (k8s.io/apimachinery's runtime/schema). */
module Schema {

  datatype GroupVersion = GroupVersion(group: string, version: string) {
    function WithResource(resource: string): GroupVersionResource {
      GroupVersionResource(group, version, resource)
    }
  }

  /** The version-independent key that decides storage sharing. */
  datatype GroupResource = GroupResource(group: string, resource: string)

  datatype GroupVersionResource = GroupVersionResource(group: string, version: string, resource: string) {
    /** gvr.GroupVersion() */
    function ToGroupVersion(): GroupVersion {
      GroupVersion(group, version)
    }
    /** gvr.GroupResource() */
    function ToGroupResource(): GroupResource {
      GroupResource(group, resource)
    }
  }

  /** runtime.APIVersionInternal */
  const APIVersionInternal := "__internal"

  /**
   * A Go type as `reflect.TypeOf` sees it: its name and whether it is a
   * pointer type (the scheme's conversion registry only accepts pointers).
   */
  datatype GoType = GoType(name: string, pointer: bool)

  /** autoscaling/v1, the group version of the Scale kind. */
  const AutoscalingV1 := GroupVersion("autoscaling", "v1")

  /** *autoscalingv1.Scale */
  const ScaleType := GoType("Scale", true)
}
