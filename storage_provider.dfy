/**
 * pkg/builder/storage_provider.go: the memoising provider shared by all
 * versions of a group-resource, the subresource resolver that decides how a
 * subresource is wired to its parent's storage, and the status and scale
 * adapters.
 */
module StorageProvider {
  import opened Wrappers
  import opened Strings
  import opened Schema
  import opened Errors
  import opened Storage
  import opened ParentContext
  import opened Objects
  import opened Requests

  /** What one invocation of a rest.ResourceHandlerProvider returns. */
  type ProvResult = Outcome<Storage>

  // ---------------------------------------------------------------------
  // singletonProvider
  // ---------------------------------------------------------------------

  /**
   * singletonProvider: the wrapped provider runs on the first Get only, and
   * every Get returns the (storage, err) pair of that run. `P` identifies the
   * wrapped provider.
   */
  class SingletonProvider<P> {
    const provider: P
    var done: bool
    var result: ProvResult
    /** How many times the wrapped provider has run. */
    ghost var calls: nat

    ghost predicate Valid()
      reads this
    {
      calls == (if done then 1 else 0)
    }

    constructor (provider: P)
      ensures Valid() && this.provider == provider && !done && calls == 0
    {
      this.provider := provider;
      done := false;
      result := Fail(Plain(""));
      calls := 0;
    }

    /**
     * Get. `produced` is what the wrapped provider would return if it were run
     * now; it is used only on the first call.
     */
    method Get(produced: ProvResult) returns (r: ProvResult)
      requires Valid()
      modifies this
      ensures Valid() && done && result == r
      ensures r == (if old(done) then old(result) else produced)
      ensures calls == old(calls) + (if old(done) then 0 else 1)
    {
      if !done {
        result := produced;
        done := true;
        calls := calls + 1;
      }
      r := result;
    }

    /**
     * A sequence of Gets, `produced[i]` being what the wrapped provider would
     * return at the i-th: all of them return the same pair, the wrapped
     * provider runs at most once, and a failure is never retried.
     */
    method GetEach(produced: seq<ProvResult>) returns (rs: seq<ProvResult>)
      requires Valid()
      modifies this
      ensures Valid() && |rs| == |produced| && calls <= 1
      ensures forall i :: 0 <= i < |rs| ==> rs[i] == (if old(done) then old(result) else produced[0])
      ensures old(done) ==> calls == old(calls) && result == old(result)
    {
      rs := [];
      var i := 0;
      while i < |produced|
        invariant 0 <= i <= |produced| && |rs| == i && Valid()
        invariant old(done) ==> done && result == old(result) && calls == old(calls)
        invariant i == 0 ==> done == old(done) && result == old(result) && calls == old(calls)
        invariant i > 0 ==> done && result == (if old(done) then old(result) else produced[0])
        invariant calls <= 1
        invariant forall k :: 0 <= k < i ==> rs[k] == (if old(done) then old(result) else produced[0])
      {
        var r := Get(produced[i]);
        rs := rs + [r];
        i := i + 1;
      }
    }
  }

  // ---------------------------------------------------------------------
  // subResourceStorageProvider.Get
  // ---------------------------------------------------------------------

  /** The error for a parent storage that lacks interface rest.`iface`. */
  function MissingCapability(gvr: GroupVersionResource, iface: string): Error {
    Plain("parent storageProvider for " + gvr.group + "/" + gvr.version + "/" + gvr.resource +
          " must implement rest." + iface)
  }

  /** The message logged when a getter/updater subresource has a non-standard parent. */
  function FallThroughLog(gvr: GroupVersionResource): string {
    "Parent storageProvider for " + gvr.group + "/" + gvr.version + "/" + gvr.resource +
    " must implement rest.StandardStorage"
  }

  const NotCanonical := Plain("parent type implementing ObjectWithStatusSubResource must be a cananical resource")

  /** The panic of calling the nil sub-provider. */
  const NilProviderCall := "invalid memory address or nil pointer dereference"

  /**
   * createStatusSubResourceStorage: the parent must be a *registry.Store;
   * the status store is a copy of it whose update strategy wraps the
   * parent's.
   */
  function CreateStatusSubResourceStorage(parent: Storage): (r: ProvResult)
    ensures r.Ok? <==> parent.IsRegistryStore()
    ensures r.Ok? ==>
      && r.value.StatusStorage?
      && r.value.store.updateStrategy == StatusStrategy(parent.store.updateStrategy)
      && r.value.store.(updateStrategy := parent.store.updateStrategy) == parent.store
    ensures !r.Ok? ==> r == Fail(NotCanonical)
  {
    match parent
    case RegistryStore(store) =>
      Ok(StatusStorage(store.(updateStrategy := StatusStrategy(store.updateStrategy))))
    case _ => Fail(NotCanonical)
  }

  /**
   * The result of subResourceStorageProvider.Get: the storage or error
   * returned, how many times the sub-provider was invoked, and what was
   * logged.
   */
  datatype Resolution = Resolution(outcome: ProvResult, subCalls: nat, log: seq<string>)

  /**
   * subResourceStorageProvider.Get. `parent` is what the parent provider
   * returns, `sub` what the sub-provider returns on its first invocation
   * (None when the sub-provider is nil), and `again` what it returns when
   * the fallback invokes it a second time.
   */
  function Resolve(gvr: GroupVersionResource, parent: ProvResult, sub: Option<ProvResult>, again: ProvResult): Resolution {
    if !parent.Ok? then Resolution(parent, 0, [])
    else if sub.Some? && !sub.value.Ok? then Resolution(sub.value, 1, [])
    else
      var p := parent.value;
      var s := if sub.Some? then sub.value.value else Nil;
      var calls := if sub.Some? then 1 else 0;
      if HasSuffix(gvr.resource, "/status") then
        if !p.IsStandardStorage() then Resolution(Fail(MissingCapability(gvr, "StandardStorage")), calls, [])
        else Resolution(CreateStatusSubResourceStorage(p), calls, [])
      else if HasSuffix(gvr.resource, "/scale") then
        if !p.IsGetter() then Resolution(Fail(MissingCapability(gvr, "Getter")), calls, [])
        else if !p.IsUpdater() then Resolution(Fail(MissingCapability(gvr, "Updater")), calls, [])
        else Resolution(Ok(ScaleStorage(p)), calls, [])
      else if s.IsConnectorSubResource() then
        if !p.IsGetter() then Resolution(Fail(MissingCapability(gvr, "Getter")), calls, [])
        else Resolution(Ok(ConnectorStorage(p, s)), calls, [])
      else if s.IsGetterUpdaterSubResource() && p.IsStandardStorage() then
        Resolution(Ok(CommonStorage(p, s)), calls, [])
      else
        var log := if s.IsGetterUpdaterSubResource() then [FallThroughLog(gvr)] else [];
        if sub.None? then Resolution(Panic(NilProviderCall), 0, log)
        else Resolution(again, 2, log)
  }

  /** The wiring a subresource gets, chosen by path suffix and then by the sub storage's capabilities. */
  datatype Shape = StatusShape | ScaleShape | ConnectorShape | GetterUpdaterShape | Passthrough

  /** The first matching rule, in the fixed order status, scale, connector, getter/updater. */
  function ShapeOf(resource: string, sub: Storage): Shape {
    if HasSuffix(resource, "/status") then StatusShape
    else if HasSuffix(resource, "/scale") then ScaleShape
    else if sub.IsConnectorSubResource() then ConnectorShape
    else if sub.IsGetterUpdaterSubResource() then GetterUpdaterShape
    else Passthrough
  }

  /** The parent provider runs first and its error (or panic) is returned unchanged, before the sub-provider runs. */
  lemma ParentErrorFirst(gvr: GroupVersionResource, parent: ProvResult, sub: Option<ProvResult>, again: ProvResult)
    requires !parent.Ok?
    ensures Resolve(gvr, parent, sub, again) == Resolution(parent, 0, [])
  {
  }

  /** A non-nil sub-provider runs next and its error is returned unchanged. */
  lemma SubErrorNext(gvr: GroupVersionResource, p: Storage, sub: ProvResult, again: ProvResult)
    requires !sub.Ok?
    ensures Resolve(gvr, Ok(p), Some(sub), again) == Resolution(sub, 1, [])
  {
  }

  /**
   * Once both providers have succeeded, the outcome is decided by the shape:
   * each shape's capability requirements on the parent, the error naming the
   * missing interface, and the wrapper built over the parent's own storage.
   */
  lemma {:induction false} ResolveByShape(gvr: GroupVersionResource, p: Storage, sub: Option<Storage>, again: ProvResult)
    ensures var s := if sub.Some? then sub.value else Nil;
      var res := Resolve(gvr, Ok(p), if sub.Some? then Some(Ok(sub.value)) else None, again);
      var calls := if sub.Some? then 1 else 0;
      match ShapeOf(gvr.resource, s)
      case StatusShape =>
        res.subCalls == calls && res.log == [] &&
        res.outcome == (if !p.IsStandardStorage() then Fail(MissingCapability(gvr, "StandardStorage"))
                        else if !p.IsRegistryStore() then Fail(NotCanonical)
                        else Ok(StatusStorage(p.store.(updateStrategy := StatusStrategy(p.store.updateStrategy)))))
      case ScaleShape =>
        res.subCalls == calls && res.log == [] &&
        res.outcome == (if !p.IsGetter() then Fail(MissingCapability(gvr, "Getter"))
                        else if !p.IsUpdater() then Fail(MissingCapability(gvr, "Updater"))
                        else Ok(ScaleStorage(p)))
      case ConnectorShape =>
        res.subCalls == 1 && res.log == [] &&
        res.outcome == (if !p.IsGetter() then Fail(MissingCapability(gvr, "Getter")) else Ok(ConnectorStorage(p, s)))
      case GetterUpdaterShape =>
        if p.IsStandardStorage() then res == Resolution(Ok(CommonStorage(p, s)), 1, [])
        else res == Resolution(again, 2, [FallThroughLog(gvr)])
      case Passthrough =>
        res == (if sub.None? then Resolution(Panic(NilProviderCall), 0, []) else Resolution(again, 2, []))
  {
    var s := if sub.Some? then sub.value else Nil;
    if sub.None? {
      assert !s.IsConnectorSubResource() && !s.IsGetterUpdaterSubResource();
    }
  }

  /**
   * A getter/updater subresource over a parent that is not a StandardStorage
   * is not an error: the mismatch is only logged, and the sub-provider's
   * second result is served directly.
   */
  lemma GetterUpdaterFallsThrough(gvr: GroupVersionResource, p: Storage, s: Storage, again: ProvResult)
    requires ShapeOf(gvr.resource, s) == GetterUpdaterShape && !p.IsStandardStorage()
    ensures Resolve(gvr, Ok(p), Some(Ok(s)), again) == Resolution(again, 2, [FallThroughLog(gvr)])
  {
  }

  /**
   * Every wrapper the resolver builds sits over the parent provider's own
   * storage, and only a missing capability, a non-canonical status parent,
   * or a provider's own failure makes it fail.
   */
  lemma {:induction false} ResolvedWrapsParent(gvr: GroupVersionResource, p: Storage, sub: Option<ProvResult>, again: ProvResult)
    requires sub.None? || sub.value.Ok?
    ensures var res := Resolve(gvr, Ok(p), sub, again);
      var s := if sub.Some? then sub.value.value else Nil;
      (res.outcome.Ok? && res.subCalls < 2 ==>
        match res.outcome.value
        case StatusStorage(store) => p == RegistryStore(store.(updateStrategy := store.updateStrategy.inner))
        case ScaleStorage(parent) => parent == p && p.IsGetter() && p.IsUpdater()
        case ConnectorStorage(parent, sub') => parent == p && sub' == s && p.IsGetter()
        case CommonStorage(parent, sub') => parent == p && sub' == s && p.IsStandardStorage()
        case _ => false) &&
      (res.outcome.Fail? && res.subCalls < 2 ==>
        res.outcome.error in {MissingCapability(gvr, "StandardStorage"), MissingCapability(gvr, "Getter"),
                               MissingCapability(gvr, "Updater"), NotCanonical})
  {
    var s := if sub.Some? then sub.value.value else Nil;
    ResolveByShape(gvr, p, if sub.Some? then Some(s) else None, again);
  }

  // ---------------------------------------------------------------------
  // statusSubResourceStorage and statusSubResourceStrategy
  // ---------------------------------------------------------------------

  /** statusSubResourceStorage.Get: forwarded to the status store, with the context untouched. */
  function StatusGet(store: Store, ctx: Context, name: string, options: GetOptions): (c: GetCall)
    ensures c.target == RegistryStore(store) && c.ctx == ctx && c.name == name && c.options == options
  {
    GetCall(RegistryStore(store), ctx, name, options)
  }

  /** statusSubResourceStorage.Update: forwarded to the status store with every argument unchanged. */
  function StatusUpdate(store: Store, ctx: Context, name: string, objInfo: ObjInfo,
                        createValidation: CreateValidation, updateValidation: UpdateValidation,
                        forceAllowCreate: bool, options: UpdateOptions): (c: UpdateCall)
    ensures c.target == RegistryStore(store) && c.ctx == ctx && c.name == name && c.objInfo == objInfo
    ensures c.createValidation == createValidation && c.updateValidation == updateValidation
    ensures c.forceAllowCreate == forceAllowCreate && c.options == options
  {
    UpdateCall(RegistryStore(store), ctx, name, objInfo, createValidation, updateValidation, forceAllowCreate, options)
  }

  /**
   * The object PrepareForUpdate leaves in both obj and prev: the incoming
   * object's status over every other field of the stored object.
   */
  function StatusMerge(incoming: Object, stored: Object): (r: Object)
    requires incoming.Resource? && stored.Resource?
    ensures r.Resource? && r.status == incoming.status
    ensures r.(status := stored.status) == stored
  {
    stored.(status := incoming.status)
  }

  /**
   * statusSubResourceStrategy.PrepareForUpdate: panics unless both objects
   * have the status interface; copies obj's status onto prev, and then prev
   * over obj. When the type cannot be deep-copied the error is only
   * reported, and obj keeps its fields.
   */
  method PrepareForUpdate(obj: ResourceRef, prev: ResourceRef) returns (r: Outcome<()>)
    modifies obj, prev
    ensures !(obj.withStatus && prev.withStatus) ==> r.Panic? && unchanged(obj, prev)
    ensures obj.withStatus && prev.withStatus ==> r == Ok(())
    ensures obj.withStatus && prev.withStatus ==>
      prev.Value() == StatusMerge(old(obj.Value()), old(prev.Value())) &&
      obj.Value() == (if prev.deepCopyable then prev.Value().(kind := obj.kind, withStatus := obj.withStatus, withScale := obj.withScale)
                      else if obj == prev then prev.Value()
                      else old(obj.Value()))
  {
    if !(obj.withStatus && prev.withStatus) {
      return Panic("interface conversion: object is not resource.ObjectWithStatusSubResource");
    }
    prev.status := obj.status;
    if prev.deepCopyable {
      obj.resourceVersion := prev.resourceVersion;
      obj.spec := prev.spec;
      obj.status := prev.status;
      obj.scale := prev.scale;
    }
    r := Ok(());
  }

  // ---------------------------------------------------------------------
  // connectorSubResourceStorage and commonSubResourceStorage
  // ---------------------------------------------------------------------

  /** commonSubResourceStorage.Get: forwarded to the subresource with the parent bound in the context. */
  function CommonGet(parent: Storage, sub: Storage, ctx: Context, name: string, options: GetOptions): (c: GetCall)
    ensures c.target == sub && c.name == name && c.options == options
    ensures ParentValue(c.ctx) == Some(parent) && ctx.bindings <= c.ctx.bindings
  {
    GetCall(sub, WithParentStorage(ctx, parent), name, options)
  }

  /** commonSubResourceStorage.Update: the same, for updates. */
  function CommonUpdate(parent: Storage, sub: Storage, ctx: Context, name: string, objInfo: ObjInfo,
                        createValidation: CreateValidation, updateValidation: UpdateValidation,
                        forceAllowCreate: bool, options: UpdateOptions): (c: UpdateCall)
    ensures c.target == sub && c.name == name && c.objInfo == objInfo
    ensures c.createValidation == createValidation && c.updateValidation == updateValidation
    ensures c.forceAllowCreate == forceAllowCreate && c.options == options
    ensures ParentValue(c.ctx) == Some(parent) && ctx.bindings <= c.ctx.bindings
  {
    UpdateCall(sub, WithParentStorage(ctx, parent), name, objInfo, createValidation, updateValidation, forceAllowCreate, options)
  }

  /** connectorSubResourceStorage.Connect: forwarded to the subresource's connector with the parent bound. */
  function ConnectorConnect(parent: Storage, sub: Storage, ctx: Context, id: string, options: ConnectOptions, responder: nat): (c: ConnectCall)
    ensures c.target == sub && c.id == id && c.options == options && c.responder == responder
    ensures ParentValue(c.ctx) == Some(parent) && ctx.bindings <= c.ctx.bindings
  {
    ConnectCall(sub, WithParentStorage(ctx, parent), id, options, responder)
  }

  /** Inside a connector or common subresource call, the parent handle looked up is the one wired in. */
  lemma SubResourceSeesParent(parent: Storage, sub: Storage, ctx: Context, name: string, options: GetOptions)
    requires parent.IsStandardStorage()
    ensures GetParentStorage(CommonGet(parent, sub, ctx, name, options).ctx) == Found(parent)
    ensures GetParentStorageGetter(CommonGet(parent, sub, ctx, name, options).ctx) == Found(parent)
  {
  }

  // ---------------------------------------------------------------------
  // scaleSubResourceStorage and scaleUpdatedObjectInfo
  // ---------------------------------------------------------------------

  /** scaleSubResourceStorage.GroupVersionKind: autoscaling/v1 Scale, whatever the containing group version. */
  function ScaleGroupVersionKind(containing: GroupVersion): (r: (GroupVersion, string))
    ensures r == (AutoscalingV1, "Scale")
  {
    (AutoscalingV1, "Scale")
  }

  const NotScaleParent := Plain("not a valid parent object, does it implement resource.ObjectWithScaleSubResource interface?")

  /** The parent Get that scaleSubResourceStorage.Get issues: the parent bound in the context. */
  function ScaleGetCall(parent: Storage, ctx: Context, name: string, options: GetOptions): (c: GetCall)
    ensures c.target == parent && c.name == name && c.options == options
    ensures ParentValue(c.ctx) == Some(parent) && ctx.bindings <= c.ctx.bindings
  {
    GetCall(parent, WithParentStorage(ctx, parent), name, options)
  }

  /** scaleSubResourceStorage.Get given the parent's response: the scale view of the parent object. */
  function ScaleGet(response: Outcome<Object>): (r: Outcome<Object>)
    ensures response.Ok? && response.value.HasScale() <==> r.Ok?
    ensures r.Ok? ==> r == Ok(ScaleObject(response.value.scale))
    ensures response.Ok? && !response.value.HasScale() ==> r == Fail(NotScaleParent)
    ensures !response.Ok? ==> r == response
  {
    match response
    case Ok(o) => if o.HasScale() then Ok(ScaleObject(o.scale)) else Fail(NotScaleParent)
    case Fail(e) => Fail(e)
    case Panic(why) => Panic(why)
  }

  /**
   * The parent Update that scaleSubResourceStorage.Update issues: the parent
   * bound in the context, the object info and both validations wrapped in
   * the scale adapters, everything else unchanged.
   */
  function ScaleUpdateCall(parent: Storage, ctx: Context, name: string, objInfo: ObjInfo,
                           createValidation: CreateValidation, updateValidation: UpdateValidation,
                           forceAllowCreate: bool, options: UpdateOptions): (c: UpdateCall)
    ensures c.target == parent && c.name == name && c.objInfo == ScaleObjInfo(objInfo)
    ensures c.createValidation == ScaleCreateValidation(createValidation)
    ensures c.updateValidation == ScaleUpdateValidation(updateValidation)
    ensures c.forceAllowCreate == forceAllowCreate && c.options == options
    ensures c.objInfo.GetPreconditions() == objInfo.GetPreconditions()
    ensures ParentValue(c.ctx) == Some(parent) && ctx.bindings <= c.ctx.bindings
  {
    UpdateCall(parent, WithParentStorage(ctx, parent), name, ScaleObjInfo(objInfo),
               ScaleCreateValidation(createValidation), ScaleUpdateValidation(updateValidation),
               forceAllowCreate, options)
  }

  /** What an Update returns: the object and whether it was created. */
  datatype Updated = Updated(obj: Object, created: bool)

  /**
   * scaleSubResourceStorage.Update given the parent's response: the scale
   * view of the updated object; an updated object without the scale
   * interface fails the unchecked assertion.
   */
  function ScaleUpdate(response: Outcome<Updated>): (r: Outcome<Updated>)
    ensures r.Ok? <==> response.Ok? && response.value.obj.HasScale()
    ensures r.Ok? ==> r == Ok(Updated(ScaleObject(response.value.obj.scale), response.value.created))
    ensures response.Fail? ==> r == response
    ensures response.Ok? && !response.value.obj.HasScale() ==> r.Panic?
  {
    match response
    case Ok(u) =>
      if u.obj.HasScale() then Ok(Updated(ScaleObject(u.obj.scale), u.created))
      else Panic("interface conversion: object is not resource.ObjectWithScaleSubResource")
    case Fail(e) => Fail(e)
    case Panic(why) => Panic(why)
  }

  const NilScaleUpdate := BadRequest("nil update passed to Scale")

  /** The BadRequest for a request that produced something other than a Scale. */
  function WrongScaleObject(o: Object): Error {
    BadRequest("wrong object passed to Scale update: " + o.TypeName())
  }

  /** The object SetScale(scale) leaves: the new scale, and the scale's resourceVersion when it has one. */
  function ScaleApplied(o: Object, scale: Scale): (r: Object)
    requires o.HasScale()
    ensures r.HasScale() && r.scale == scale
    ensures r.resourceVersion == (if |scale.resourceVersion| != 0 then scale.resourceVersion else o.resourceVersion)
    ensures r.spec == o.spec && r.status == o.status && r.kind == o.kind && r.withStatus == o.withStatus
  {
    o.(scale := scale,
       resourceVersion := if |scale.resourceVersion| != 0 then scale.resourceVersion else o.resourceVersion)
  }

  /**
   * scaleUpdatedObjectInfo.UpdatedObject: the request's update is computed
   * from the old object's scale (`request` models the wrapped
   * UpdatedObjectInfo), and a resulting Scale is set on the old object,
   * which is returned.
   */
  method UpdatedObject(ctx: Context, oldObj: ResourceRef, request: (Context, Object) -> Outcome<Object>)
    returns (r: Outcome<ResourceRef>)
    modifies oldObj
    ensures !oldObj.withScale ==> r.Panic? && unchanged(oldObj)
    ensures oldObj.withScale ==>
      var resp := request(ctx, ScaleObject(old(oldObj.scale)));
      if !resp.Ok? then unchanged(oldObj) && (resp.Fail? ==> r == Fail(resp.error)) && (resp.Panic? ==> r == Panic(resp.reason))
      else if resp.value.NilObject? then r == Fail(NilScaleUpdate) && unchanged(oldObj)
      else if !resp.value.ScaleObject? then r == Fail(WrongScaleObject(resp.value)) && unchanged(oldObj)
      else r == Ok(oldObj) && oldObj.Value() == ScaleApplied(old(oldObj.Value()), resp.value.scale)
  {
    if !oldObj.withScale {
      return Panic("interface conversion: object is not resource.ObjectWithScaleSubResource");
    }
    var resp := request(ctx, ScaleObject(oldObj.scale));
    match resp
    case Fail(e) => return Fail(e);
    case Panic(why) => return Panic(why);
    case Ok(o) =>
      if o.NilObject? {
        return Fail(NilScaleUpdate);
      }
      if !o.ScaleObject? {
        return Fail(WrongScaleObject(o));
      }
      oldObj.scale := o.scale;
      if |o.scale.resourceVersion| != 0 {
        oldObj.resourceVersion := o.scale.resourceVersion;
      }
      r := Ok(oldObj);
  }

  /**
   * Running a create validation on `obj`: the scale adapter asserts the
   * scale interface and validates the scale view. `base` models the
   * request's own validation functions.
   */
  function CreateValidate(v: CreateValidation, ctx: Context, obj: Object,
                          base: (nat, Context, Object) -> Option<Error>): Outcome<()>
  {
    match v
    case CreateValidator(id) => if base(id, ctx, obj).Some? then Fail(base(id, ctx, obj).value) else Ok(())
    case ScaleCreateValidation(inner) =>
      if obj.HasScale() then CreateValidate(inner, ctx, ScaleObject(obj.scale), base)
      else Panic("interface conversion: object is not resource.ObjectWithScaleSubResource")
  }

  /**
   * Running an update validation on (obj, prev): the scale adapter asserts
   * the scale interface on both, then passes the full objects on.
   */
  function UpdateValidate(v: UpdateValidation, ctx: Context, obj: Object, prev: Object,
                          base: (nat, Context, Object, Object) -> Option<Error>): Outcome<()>
  {
    match v
    case UpdateValidator(id) => if base(id, ctx, obj, prev).Some? then Fail(base(id, ctx, obj, prev).value) else Ok(())
    case ScaleUpdateValidation(inner) =>
      if prev.HasScale() && obj.HasScale() then UpdateValidate(inner, ctx, obj, prev, base)
      else Panic("interface conversion: object is not resource.ObjectWithScaleSubResource")
  }

  /** toScaleCreateValidation: the request's create validation sees the scale view, not the parent object. */
  lemma ScaleCreateSeesScale(id: nat, ctx: Context, obj: Object, base: (nat, Context, Object) -> Option<Error>)
    requires obj.HasScale()
    ensures CreateValidate(ScaleCreateValidation(CreateValidator(id)), ctx, obj, base) ==
      CreateValidate(CreateValidator(id), ctx, ScaleObject(obj.scale), base)
  {
  }

  /** toScaleUpdateValidation: the request's update validation sees the full new and old parent objects. */
  lemma ScaleUpdateSeesParents(id: nat, ctx: Context, obj: Object, prev: Object,
                               base: (nat, Context, Object, Object) -> Option<Error>)
    ensures UpdateValidate(ScaleUpdateValidation(UpdateValidator(id)), ctx, obj, prev, base) ==
      if prev.HasScale() && obj.HasScale() then UpdateValidate(UpdateValidator(id), ctx, obj, prev, base)
      else Panic("interface conversion: object is not resource.ObjectWithScaleSubResource")
  {
  }

  // ---------------------------------------------------------------------
  // errs
  // ---------------------------------------------------------------------

  /** The messages of a list of errors, in order. */
  function Messages(list: seq<Error>): (ms: seq<string>)
    ensures |ms| == |list| && forall i :: 0 <= i < |list| ==> ms[i] == Message(list[i])
  {
    if |list| == 0 then [] else Messages(list[..|list| - 1]) + [Message(list[|list| - 1])]
  }

  /**
   * errs.Error: "N errors: " and then each message, joined by newlines; the
   * same text as the errs value's own Message.
   */
  method ErrsError(list: seq<Error>) returns (s: string)
    ensures s == Join([Decimal(|list|) + " errors: "] + Messages(list), "\n")
    ensures s == Message(Aggregate(list))
  {
    var msgs := [Decimal(|list|) + " errors: "];
    var i := 0;
    while i < |list|
      invariant 0 <= i <= |list|
      invariant msgs == [Decimal(|list|) + " errors: "] + Messages(list[..i])
    {
      assert list[..i + 1][..i] == list[..i];
      msgs := msgs + [Message(list[i])];
      i := i + 1;
    }
    assert list[..|list|] == list;
    s := Join(msgs, "\n");
    AggregateMessage(list);
  }

  /** The errs text is the Aggregate error's own Message. */
  lemma AggregateMessage(list: seq<Error>)
    ensures Message(Aggregate(list)) == Join([Decimal(|list|) + " errors: "] + Messages(list), "\n")
  {
    assert Message(Aggregate(list)) == Decimal(|list|) + " errors: " + Concat(Prefixed(Messages(list), "\n")) by {
      assert Messages(list) == seq(|list|, i requires 0 <= i < |list| => Message(list[i]));
    }
    JoinCons(Decimal(|list|) + " errors: ", Messages(list), "\n");
  }
}
