/**
 * API objects as the status and scale adapters see them: a resource object
 * reduced to {resourceVersion, spec, status, scale}, an autoscaling/v1 Scale,
 * or some other runtime.Object.
 */
module Objects {
  import opened Schema

  /** The fields of an *autoscalingv1.Scale. */
  datatype Scale = Scale(resourceVersion: string, replicas: int, selector: string)

  /**
   * A runtime.Object value. `withStatus` and `withScale` say whether its Go
   * type implements resource.ObjectWithStatusSubResource and
   * resource.ObjectWithScaleSubResource; `scale` is what its GetScale()
   * returns and what SetScale() replaces.
   */
  datatype Object =
    | Resource(kind: GoType, withStatus: bool, withScale: bool,
               resourceVersion: string, spec: string, status: string, scale: Scale)
    | ScaleObject(scale: Scale)
    | Foreign(kind: GoType)
    | NilObject
  {
    /** obj.(resource.ObjectWithScaleSubResource) succeeds */
    predicate HasScale() {
      Resource? && withScale
    }

    /** The Go type name %T would print for the object. */
    function TypeName(): string {
      match this
      case Resource(kind, _, _, _, _, _, _) => kind.name
      case ScaleObject(_) => ScaleType.name
      case Foreign(kind) => kind.name
      case NilObject => "<nil>"
    }
  }

  /** A pointer to a resource object, whose fields the adapters overwrite in place. */
  class ResourceRef {
    const kind: GoType
    const withStatus: bool
    const withScale: bool
    /** The type has a DeepCopyInto method of the shape util.DeepCopy requires. */
    const deepCopyable: bool
    var resourceVersion: string
    var spec: string
    var status: string
    var scale: Scale

    constructor (kind: GoType, withStatus: bool, withScale: bool, deepCopyable: bool,
                 resourceVersion: string, spec: string, status: string, scale: Scale)
      ensures this.kind == kind && this.withStatus == withStatus && this.withScale == withScale
      ensures this.deepCopyable == deepCopyable
      ensures this.resourceVersion == resourceVersion && this.spec == spec
      ensures this.status == status && this.scale == scale
    {
      this.kind := kind;
      this.withStatus := withStatus;
      this.withScale := withScale;
      this.deepCopyable := deepCopyable;
      this.resourceVersion := resourceVersion;
      this.spec := spec;
      this.status := status;
      this.scale := scale;
    }

    /** The object the pointer currently refers to. */
    function Value(): Object
      reads this
    {
      Resource(kind, withStatus, withScale, resourceVersion, spec, status, scale)
    }
  }
}
