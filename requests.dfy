/**
 * The arguments of the rest.Getter, rest.Updater and rest.Connecter calls a
 * storage wrapper forwards, recorded as values so that the forwarding can be
 * stated exactly.
 */
module Requests {
  import opened Wrappers
  import opened Storage
  import opened ParentContext

  /** *metav1.GetOptions, *metav1.UpdateOptions and connect options: passed through untouched. */
  datatype GetOptions = GetOptions(id: nat)
  datatype UpdateOptions = UpdateOptions(id: nat)
  datatype ConnectOptions = ConnectOptions(id: nat)

  /** *metav1.Preconditions */
  datatype Preconditions = Preconditions(uid: Option<string>, resourceVersion: Option<string>)

  /** rest.UpdatedObjectInfo: the request's own, or the scale adapter around it. */
  datatype ObjInfo =
    | RequestObjInfo(id: nat, preconditions: Option<Preconditions>)
    | ScaleObjInfo(request: ObjInfo)
  {
    /** Preconditions(): the scale adapter forwards its request's. */
    function GetPreconditions(): Option<Preconditions> {
      match this
      case RequestObjInfo(_, p) => p
      case ScaleObjInfo(request) => request.GetPreconditions()
    }
  }

  /** rest.ValidateObjectFunc and rest.ValidateObjectUpdateFunc: a request's own, or the scale adapter. */
  datatype CreateValidation = CreateValidator(id: nat) | ScaleCreateValidation(inner: CreateValidation)
  datatype UpdateValidation = UpdateValidator(id: nat) | ScaleUpdateValidation(inner: UpdateValidation)

  /** A call target.Get(ctx, name, options). */
  datatype GetCall = GetCall(target: Storage, ctx: Context, name: string, options: GetOptions)

  /** A call target.Update(ctx, name, objInfo, createValidation, updateValidation, forceAllowCreate, options). */
  datatype UpdateCall = UpdateCall(
    target: Storage, ctx: Context, name: string, objInfo: ObjInfo,
    createValidation: CreateValidation, updateValidation: UpdateValidation,
    forceAllowCreate: bool, options: UpdateOptions)

  /** A call target.Connect(ctx, id, options, responder). */
  datatype ConnectCall = ConnectCall(target: Storage, ctx: Context, id: string, options: ConnectOptions, responder: nat)
}
