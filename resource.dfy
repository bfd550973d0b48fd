/**
 * What the builder learns about a resource.Object by calling its descriptor
 * methods and by type assertions on it.
 */
module Resource {
  import opened Wrappers
  import opened Schema
  import opened Storage

  /** One element of GetArbitrarySubResources(): SubResourceName(), the type New() returns, and the value as a storage. */
  datatype SubResourceDecl = SubResourceDecl(name: string, newType: GoType, storage: Storage)

  datatype ResourceObject = ResourceObject(
    gvr: GroupVersionResource,              // GetGroupVersionResource()
    self: GoType,                           // reflect.TypeOf(obj)
    newType: GoType,                        // the type New() returns
    newListType: GoType,                    // the type NewList() returns
    storageVersion: bool,                   // IsStorageVersion()
    multiVersion: Option<GoType>,           // MultiVersionObject: the type NewStorageVersionObject() returns
    defaulter: bool,                        // resourcestrategy.Defaulter
    withStatus: bool,                       // ObjectWithStatusSubResource
    statusObject: Option<GoType>,           // GetStatus().(runtime.Object) succeeds, with this type
    withScale: bool,                        // ObjectWithScaleSubResource
    arbitrary: Option<seq<SubResourceDecl>>, // ObjectWithArbitrarySubResource
    restHandler: bool,                      // resourcerest.Creator, Updater, Getter or Lister
    asStorage: Storage)                     // the object itself as a rest.Storage
}
