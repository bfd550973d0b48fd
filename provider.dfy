/**
 * pkg/builder/rest/provider.go: request-handler providers as descriptors,
 * the static providers, and the wrappers that plumb a parent storage into
 * the context of every call they forward.
 */
module RestProvider {
  import opened Wrappers
  import opened Schema
  import opened Errors
  import opened Storage
  import opened ParentContext
  import opened Requests
  import opened Resource

  /**
   * A rest.ResourceHandlerProvider, by where it came from. Invoking one is
   * the scheme/etcd machinery's business; the model records which provider
   * each route holds, and passes the results of invocations in.
   */
  datatype Provider =
    | DefaultStore(obj: ResourceObject)                  // rest.New(obj)
    | StrategyStore(obj: ResourceObject, strategy: nat)  // rest.NewWithStrategy(obj, strategy)
    | FnStore(obj: ResourceObject, fn: nat)              // rest.NewWithFn(obj, fn)
    | Handler(id: nat)                                   // supplied by the caller
    | Static(storage: Storage)                           // StaticHandlerProvider{storage}.Get
    | ParentStatic(storage: Storage, parent: Provider)   // ParentStaticHandlerProvider{storage, parent}.Get
    | SingletonGet(key: GroupResource)                   // the Get of the singletonProvider for key
    | SubResourceGet(gvr: GroupVersionResource, parent: Provider, sub: Option<Provider>) // subResourceStorageProvider.Get

  /** StaticHandlerProvider.Get: its storage and no error, whatever the scheme and options. */
  function StaticGet(storage: Storage, scheme: nat, optsGetter: nat): (r: Outcome<Storage>)
    ensures r.Ok? && r.value == storage
  {
    Ok(storage)
  }

  /**
   * ParentStaticHandlerProvider.Get. `parent` is what the parent provider
   * returns; it is invoked on every call, and its error is returned before
   * the storage is looked at.
   */
  function ParentStaticGet(storage: Storage, parent: Outcome<Storage>): (r: Outcome<Storage>)
    ensures !parent.Ok? ==> r == parent
    ensures parent.Ok? ==> r.Ok?
    ensures parent.Ok? && storage.IsGetter() && storage.IsUpdater() ==>
      r.value == PlumbedGetterUpdater(storage, parent.value)
    ensures parent.Ok? && storage.IsGetter() && !storage.IsUpdater() ==>
      r.value == PlumbedGetter(storage, parent.value)
    ensures parent.Ok? && !storage.IsGetter() ==> r.value == storage
  {
    match parent
    case Fail(e) => Fail(e)
    case Panic(why) => Panic(why)
    case Ok(p) =>
      if storage.IsGetter() && storage.IsUpdater() then Ok(PlumbedGetterUpdater(storage, p))
      else if storage.IsGetter() then Ok(PlumbedGetter(storage, p))
      else Ok(storage)
  }

  /** A parent-plumbed wrapper. */
  predicate IsPlumbed(w: Storage) {
    w.PlumbedGetter? || w.PlumbedGetterUpdater?
  }

  /** The Get of either wrapper: delegated with the parent bound in the context, every other argument unchanged. */
  function PlumbedGet(w: Storage, ctx: Context, name: string, options: GetOptions): (c: GetCall)
    requires IsPlumbed(w)
    ensures c.target == w.delegate && c.name == name && c.options == options
    ensures ParentValue(c.ctx) == Some(w.parent) && ctx.bindings <= c.ctx.bindings
  {
    GetCall(w.delegate, WithParentStorage(ctx, w.parent), name, options)
  }

  /** The Update of the getter-updater wrapper, delegated the same way. */
  function PlumbedUpdate(w: Storage, ctx: Context, name: string, objInfo: ObjInfo,
                         createValidation: CreateValidation, updateValidation: UpdateValidation,
                         forceAllowCreate: bool, options: UpdateOptions): (c: UpdateCall)
    requires w.PlumbedGetterUpdater?
    ensures c.target == w.delegate && c.name == name && c.objInfo == objInfo
    ensures c.createValidation == createValidation && c.updateValidation == updateValidation
    ensures c.forceAllowCreate == forceAllowCreate && c.options == options
    ensures ParentValue(c.ctx) == Some(w.parent) && ctx.bindings <= c.ctx.bindings
  {
    UpdateCall(w.delegate, WithParentStorage(ctx, w.parent), name, objInfo,
               createValidation, updateValidation, forceAllowCreate, options)
  }

  /** Both wrappers construct what the parent storage constructs, not what the delegate does. */
  lemma PlumbedNewIsParentNew(storage: Storage, p: Storage)
    requires storage.IsGetter()
    ensures ParentStaticGet(storage, Ok(p)).value.NewType() == p.NewType()
  {
  }

  /**
   * End to end: inside a Get forwarded by the provider's result, looking up
   * the parent storage yields the storage the parent provider returned (or
   * the panic of a parent without the asserted interface).
   */
  lemma PlumbedCallSeesParent(storage: Storage, p: Storage, ctx: Context, name: string, options: GetOptions)
    requires storage.IsGetter() && p != Nil
    ensures var c := PlumbedGet(ParentStaticGet(storage, Ok(p)).value, ctx, name, options);
      c.target == storage &&
      GetParentStorageGetter(c.ctx) == (if p.IsGetter() then Found(p) else AssertionPanic) &&
      GetParentStorage(c.ctx) == (if p.IsStandardStorage() then Found(p) else AssertionPanic)
  {
    BoundIsFound(ctx, p);
  }
}
