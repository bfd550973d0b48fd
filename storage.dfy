/**
 * Request handlers ("storages", k8s.io/apiserver's rest.Storage) as values
 * tagged with the capabilities the builder tests by type assertion, together
 * with every wrapper shape the builder and its rest package construct.
 */
module Storage {
  import opened Wrappers
  import opened Schema

  /**
   * What a storage of otherwise unknown type implements: rest.StandardStorage,
   * rest.Getter, rest.Updater, rest.Connecter, and SubResourceName() (the
   * resource.SubResource interface).
   */
  datatype Caps = Caps(standard: bool, getter: bool, updater: bool, connecter: bool, subResource: bool)

  /** rest.StandardStorage embeds rest.Getter and rest.Updater. */
  type StorageCaps = c: Caps | c.standard ==> c.getter && c.updater
    witness Caps(false, false, false, false, false)

  /** A store's update strategy; the status adapter wraps the parent's. */
  datatype UpdateStrategy = Strategy(id: nat) | StatusStrategy(inner: UpdateStrategy)

  /** The fields of a *registry.Store the builder sets or reads. */
  datatype Store = Store(
    id: nat,
    newType: GoType,
    newListType: GoType,
    qualifiedResource: GroupResource,
    createStrategy: nat,
    updateStrategy: UpdateStrategy,
    deleteStrategy: nat)

  datatype Storage =
    | Nil                                                 // a nil rest.Storage
    | Opaque(id: nat, caps: StorageCaps, newType: GoType) // any other implementation
    | RegistryStore(store: Store)                         // *registry.Store
    // pkg/builder/storage_provider.go
    | StatusStorage(store: Store)                         // statusSubResourceStorage
    | ScaleStorage(parent: Storage)                       // scaleSubResourceStorage
    | ConnectorStorage(parent: Storage, sub: Storage)     // connectorSubResourceStorage
    | CommonStorage(parent: Storage, sub: Storage)        // commonSubResourceStorage
    // pkg/builder/rest/provider.go
    | PlumbedGetter(delegate: Storage, parent: Storage)   // parentPlumbedStorageGetterProvider
    | PlumbedGetterUpdater(delegate: Storage, parent: Storage) // parentPlumbedStorageGetterUpdaterProvider
  {
    /** storage.(rest.StandardStorage) succeeds */
    predicate IsStandardStorage() {
      match this
      case Opaque(_, caps, _) => caps.standard
      case RegistryStore(_) => true
      case _ => false
    }

    /** storage.(rest.Getter) succeeds */
    predicate IsGetter() {
      match this
      case Nil => false
      case Opaque(_, caps, _) => caps.getter
      case ConnectorStorage(_, _) => false
      case _ => true
    }

    /** storage.(rest.Updater) succeeds */
    predicate IsUpdater() {
      match this
      case Nil => false
      case Opaque(_, caps, _) => caps.updater
      case ConnectorStorage(_, _) => false
      case PlumbedGetter(_, _) => false
      case _ => true
    }

    /** storage.(*registry.Store) succeeds */
    predicate IsRegistryStore() {
      RegistryStore?
    }

    /**
     * storage.(resource.ConnectorSubResource) succeeds: a SubResource that is
     * also a rest.Connecter. None of the wrappers has SubResourceName().
     */
    predicate IsConnectorSubResource() {
      Opaque? && caps.subResource && caps.connecter
    }

    /** storage.(resource.GetterUpdaterSubResource): a SubResource that is a Getter and an Updater. */
    predicate IsGetterUpdaterSubResource() {
      Opaque? && caps.subResource && caps.getter && caps.updater
    }

    /**
     * The type of the object New() returns; None for a nil storage, whose
     * New() would dereference nil.
     */
    function NewType(): Option<GoType> {
      match this
      case Nil => None
      case Opaque(_, _, t) => Some(t)
      case RegistryStore(store) => Some(store.newType)
      case StatusStorage(store) => Some(store.newType)
      case ScaleStorage(_) => Some(ScaleType)
      case ConnectorStorage(_, sub) => sub.NewType()
      case CommonStorage(_, sub) => sub.NewType()
      case PlumbedGetter(_, parent) => parent.NewType()
      case PlumbedGetterUpdater(_, parent) => parent.NewType()
    }
  }
}
