# apiserver-runtime: storage composition, registration and samples

This project is a Dafny model of the core of apiserver-runtime. The library
builds a Kubernetes extension apiserver from `resource.Object` types. The
model covers:

- **Storage composition** (`storage_provider.dfy`, `provider.dfy`, `context.dfy`):
  - the memoising `singletonProvider` that all versions of a group-resource share;
  - the decision chain in `subResourceStorageProvider.Get` that wires a
    subresource to its parent's storage (status, scale, connector,
    getter/updater, passthrough);
  - the status and scale adapters;
  - `ParentStaticHandlerProvider` and its parent-plumbed wrappers;
  - the typed parent-storage lookup in the request context.
- **Registry bookkeeping** (`builder.dfy`):
  - the `Server`'s tables: the singleton per group-resource and the
    ordered, deduplicated group versions, together with a model of the
    package-level route table `apiserver.APIs` that the builder writes and
    Build reads;
  - the `WithResource*` family;
  - `Build`, with its version priorities and error short-circuit, and `Execute`.
- **Scheme registration** (`register.dfy`): the `AddToScheme` loop over a
  `Scheme` class. It fills the known-type, conversion and defaulting tables.
- **Samples**:
  - the Flunder validator (`flunders.dfy`);
  - the Fortune table converter and the output parsing of Fortune's Get and List
    (`fortune.dfy`, `fortune_storage.dfy`);
  - the example resource's table conversion (`example.dfy`);
  - the code-generator driver (`gen.dfy`): the version regex, the flag
    checks, default versions, the go.mod search, and the generator ordering.

Supporting modules:

- `schema.dfy`: group/version/resource names.
- `storage.dfy`: a storage as the interfaces it implements.
- `objects.dfy`: objects reduced to `{resourceVersion, spec, status, scale}`.
- `requests.dfy`: the arguments of a forwarded REST call.
- `resource.dfy`: a `resource.Object` as the builder sees it.
- `errors.dfy`: Go errors as values, and `Outcome` (ok, error or panic).
- `strings.dfy`: `strings.Join` and `%d`.
- `sorting.dfy`: `sets.String.List()`.
- `seqs.dfy`: one sequence fact.

How each kind of code is modelled:

- Imperative code is modelled with classes and loops:
  - `SingletonProvider`, `Server`, `Scheme` and `TableConverter` are classes
    whose methods update their fields;
  - `PrepareForUpdate` and `UpdatedObject` update a `ResourceRef` object in place;
  - loops become `while`/`for` loops, proved against specification functions.
- Decision chains and value wrappers are modelled as functions.
- Providers and storages are descriptors. The result of invoking a provider
  is a parameter, because the provider's own code is not part of this model.

## Model

| member | source | states |
|---|---|---|
| StorageProvider.SingletonProvider.constructor | pkg/builder/builder_resource.go:141-143 | A new singleton wraps the given provider, has not run it, and counts zero runs. |
| StorageProvider.SingletonProvider.Get | pkg/builder/storage_provider.go:34-40 | The first Get runs the wrapped provider once and stores its (storage, err). Every later Get returns the stored pair and does not run it again. |
| StorageProvider.SingletonProvider.GetEach | pkg/builder/storage_provider.go:26-40 | Over any sequence of Gets, the provider runs at most once. Every call returns the identical pair, so a failure is sticky and never retried. |
| StorageProvider.CreateStatusSubResourceStorage | pkg/builder/storage_provider.go:124-134 | It succeeds exactly when the parent is a `*registry.Store`. The status store is a copy of the parent store with only UpdateStrategy replaced, by a wrapper around the parent's strategy. Otherwise it fails with the not-canonical error. |
| StorageProvider.ParentErrorFirst | pkg/builder/storage_provider.go:48-52 | A parent provider's error is returned unchanged, and no sub-provider runs. |
| StorageProvider.SubErrorNext | pkg/builder/storage_provider.go:54-60 | After a successful parent, a sub-provider's error is returned unchanged after one sub-provider run. |
| StorageProvider.ResolveByShape | pkg/builder/storage_provider.go:62-121 | Shape selection is first-match, in order: "/status" suffix, "/scale" suffix, connector, getter/updater, passthrough. Status needs a StandardStorage parent, scale needs Getter and Updater, and connector needs Getter; a missing capability gives an error naming the group/version/resource. Passthrough returns the sub-provider's result itself. |
| StorageProvider.GetterUpdaterFallsThrough | pkg/builder/storage_provider.go:104-121 | A getter/updater subresource over a non-StandardStorage parent logs once, runs the sub-provider again, and returns that result with no error. |
| StorageProvider.ResolvedWrapsParent | pkg/builder/storage_provider.go:62-118 | Every wrapper the resolver returns is built over the parent storage it was given, and over the sub storage, with the required capability present. |
| StorageProvider.StatusGet | pkg/builder/storage_provider.go:144-146 | A status Get goes to the status store with the context, name and options unchanged. |
| StorageProvider.StatusUpdate | pkg/builder/storage_provider.go:152-160 | A status Update goes to the status store with every argument unchanged. |
| StorageProvider.StatusMerge | pkg/builder/storage_provider.go:170-179 | The merged object has the incoming status, and every other field comes from the stored object. |
| StorageProvider.PrepareForUpdate | pkg/builder/storage_provider.go:170-179 | Both objects must carry status, or the type assertion panics and nothing changes. The old object takes the new status. The new object then becomes a copy of the old one, keeping its own type; when the type cannot be deep-copied, the new object keeps its fields. |
| StorageProvider.CommonGet | pkg/builder/storage_provider.go:196-201 | The subresource's Get receives a context bound to the parent storage (extending the caller's), and the name and options unchanged. |
| StorageProvider.CommonUpdate | pkg/builder/storage_provider.go:203-218 | The subresource's Update receives a context bound to the parent storage, and every other argument unchanged. |
| StorageProvider.ConnectorConnect | pkg/builder/storage_provider.go:235-241 | Connect is forwarded to the subresource's connector with the parent bound, and the id, options and responder unchanged. |
| StorageProvider.SubResourceSeesParent | pkg/builder/storage_provider.go:196-201 | Inside a forwarded call both context accessors find the parent storage. |
| StorageProvider.ScaleGroupVersionKind | pkg/builder/storage_provider.go:258-260 | The scale subresource's kind is always autoscaling/v1 Scale. |
| StorageProvider.ScaleGetCall | pkg/builder/storage_provider.go:270-274 | A scale Get reads the parent with the parent bound in the context, and the name and options unchanged. |
| StorageProvider.ScaleGet | pkg/builder/storage_provider.go:270-283 | The result is the object's Scale exactly when the parent object has one. A parent error is returned unchanged. An object without the scale interface gives the not-a-scale-parent error. |
| StorageProvider.ScaleUpdateCall | pkg/builder/storage_provider.go:285-314 | The parent's Update receives the parent bound in the context, the scale-adapting object info (whose Preconditions are the caller's), and the scale-adapting validators. The name, forceAllowCreate and options are unchanged. |
| StorageProvider.ScaleUpdate | pkg/builder/storage_provider.go:300-303 | A successful update returns the Scale of the updated object, with its created flag. Errors pass through. An updated object without a scale panics. |
| StorageProvider.ScaleApplied | pkg/builder/storage_provider.go:330-335 | The old object takes the new scale. Its resourceVersion is overwritten only by a non-empty one, and every other field is kept. |
| StorageProvider.UpdatedObject | pkg/builder/storage_provider.go:316-337 | No scale interface on the old object panics. Otherwise the inner update gets old.GetScale(), and its error is returned unchanged. A nil result gives BadRequest "nil update passed to Scale", and a non-Scale result another BadRequest; both leave the object unchanged. Otherwise the scale is applied to the old object, which is returned. |
| StorageProvider.ScaleCreateSeesScale | pkg/builder/storage_provider.go:339-344 | Create validation receives the scale view of the object. |
| StorageProvider.ScaleUpdateSeesParents | pkg/builder/storage_provider.go:346-352 | Update validation receives the full new and old parent objects, not their scale views. |
| StorageProvider.Messages | pkg/builder/storage_provider.go:358-364 | One message per error, in order. |
| StorageProvider.ErrsError | pkg/builder/storage_provider.go:358-364 | The loop builds "N errors: " followed by each message, joined by newlines. This equals the aggregate error's message. |
| StorageProvider.AggregateMessage | pkg/builder/storage_provider.go:358-364 | The aggregate error's message is the count line and then the messages, joined by newlines. |
| RestProvider.StaticGet | pkg/builder/rest/provider.go:39-41 | Get returns the static storage and no error, whatever the arguments. |
| RestProvider.ParentStaticGet | pkg/builder/rest/provider.go:51-72 | The parent provider's error is returned before Storage is looked at. Getter and updater gives the getter-updater wrapper, getter only gives the getter wrapper, and anything else (updater only included) returns Storage unchanged. |
| RestProvider.PlumbedGet | pkg/builder/rest/provider.go:85-104 | The wrapped Get goes to the delegate with the parent bound in the context, and the name and options unchanged. |
| RestProvider.PlumbedUpdate | pkg/builder/rest/provider.go:106-122 | The wrapped Update goes to the delegate with the parent bound, and every other argument unchanged. |
| RestProvider.PlumbedNewIsParentNew | pkg/builder/rest/provider.go:81-100 | Both wrappers' New() is the parent storage's New(), not the delegate's. |
| RestProvider.PlumbedCallSeesParent | pkg/builder/rest/provider.go:51-87 | Through the wrapper returned for a getter, the delegate's Get receives a context in which the parent storage is found. |
| ParentContext.NewestIsLastBinding | pkg/util/context/context.go:20-30 | The lookup returns s exactly when the newest parent-storage binding holds s. Older bindings are shadowed, and no binding gives nothing. |
| ParentContext.UnboundIsAbsent | pkg/util/context/context.go:19-35 | On a context never derived by WithParentStorage, both accessors return (nil, false). |
| ParentContext.BoundIsFound | pkg/util/context/context.go:14-35 | After WithParentStorage(ctx, s), each accessor returns s, or panics when s lacks the asserted interface. |
| ParentContext.DerivationShadows | pkg/util/context/context.go:14-16 | Deriving leaves the original context unchanged as a prefix. A later parent binding shadows an earlier one, and a binding under another key shadows nothing. |
| Builder.AppendNewDistinct | pkg/builder/builder_resource.go:166-178 | The ordered group versions keep their prefix, never hold a version twice, and hold exactly the versions seen, in first-seen order. |
| Builder.ArbitraryRoutes | pkg/builder/builder_resource.go:191-200 | One route per arbitrary subresource, in order: resource/name, served over the parent provider with a ParentStaticHandlerProvider as its sub-provider. |
| Builder.SubResourceRoutesShareParent | pkg/builder/builder_resource.go:180-201 | Every subresource route is a path below the resource, in its group version, over the resource's own parent provider. Status and scale have no sub-provider. Arbitrary ones have a ParentStaticHandlerProvider over that parent. |
| Builder.ApplyRoutesDomain | pkg/builder/builder_resource.go:145-158 | The keys after setting routes are the old keys and the routes' keys, in both directions. |
| Builder.ApplyRoutesUntouched | pkg/builder/builder_resource.go:145-158 | A key that no route names keeps its provider. |
| Builder.ApplyRoutesLast | pkg/builder/builder_resource.go:145-158 | The last route for a key decides the key's provider. |
| Builder.ApplyRoutesKeys | pkg/builder/builder_resource.go:145-158 | Setting routes adds exactly their keys. The last route for a key wins, and other keys keep their providers. |
| Builder.ApplyRoutesAppend | pkg/builder/builder_resource.go:145-158 | Setting two runs of routes one after the other equals setting their concatenation. |
| Builder.Server.constructor | pkg/builder/builder.go:33-35 | The new server has empty tables over the given scheme. |
| Builder.Server.WithGroupVersions | pkg/builder/builder_resource.go:166-178 | The ordered list gains the unseen versions in first-seen order, the set gains all of them, and nothing else changes. |
| Builder.Server.ForGroupVersionResource | pkg/builder/builder_resource.go:133-147 | The group version is registered. A singleton is created only when the group-resource has none, and an existing one is never replaced. The GVR is routed to the provider passed in, not to the singleton. |
| Builder.Server.ForGroupVersionSubResource | pkg/builder/builder_resource.go:150-163 | A resource name without "/" ends the process, and no route is set. Otherwise the GVR is routed to a subresource provider over the parent and sub-provider. |
| Builder.Server.WithSubResourceIfExists | pkg/builder/builder_resource.go:180-201 | The routes set are exactly status, then scale, then the arbitrary subresources, each over the given parent. |
| Builder.Server.WithArbitrarySubResources | pkg/builder/builder_resource.go:191-200 | The loop routes each arbitrary subresource in order. |
| Builder.Server.WithResource | pkg/builder/builder_resource.go:57-85 | A group-resource already seen gets only a route from the new GVR to the existing singleton's Get, with no new provider and no subresource routes. Otherwise a fresh singleton wraps the object itself (when it implements a rest interface) or a default store. The GVR route is that raw provider, and the subresource routes are built over it. |
| Builder.Server.WithResourceAndStrategy | pkg/builder/builder_resource.go:93-103 | It routes the GVR to a strategy store and registers its subresource routes over it. A new group-resource gets a fresh, unrun singleton over that store; a known one keeps its singleton. |
| Builder.Server.WithResourceAndHandler | pkg/builder/builder_resource.go:112-116 | It routes the GVR to the handler and registers no subresource routes. A new group-resource gets a fresh, unrun singleton over the handler; a known one keeps its singleton. |
| Builder.Server.WithResourceAndStorage | pkg/builder/builder_resource.go:126-130 | It routes the GVR to the store function and registers no subresource routes. A new group-resource gets a fresh, unrun singleton over that store; a known one keeps its singleton. |
| Builder.RouteVersionsNonEmpty | pkg/builder/builder.go:52-58 | Every group among the route keys has at least one version. |
| Builder.PrioritiesFailOnlyOnInternal | pkg/builder/builder.go:52-70 | Over the route groups, the priority loop can fail only on an internal version, never with the empty-list error. |
| Builder.SortedVersionsRecorded | pkg/builder/builder.go:59-67 | Recording a group's sorted route versions gives it exactly those versions, strictly sorted, as its priority. |
| Builder.PrioritiesAreSortedVersions | pkg/builder/builder.go:52-70 | When no SetVersionPriority fails, each group's priority list is its distinct route versions, strictly sorted. |
| Builder.InstalledInOrder | pkg/builder/builder.go:52-74 | When the priorities succeed, AddToGroupVersion runs once per ordered group version, in that order. |
| Builder.PrioritiesStopAt | pkg/builder/builder.go:67-70 | The first failing SetVersionPriority ends the priority loop. |
| Builder.StepsExtend | pkg/builder/builder.go:78-82 | After an error-free prefix of the registered functions, the next function runs on the state that prefix left. |
| Builder.StepsStopAt | pkg/builder/builder.go:78-82 | The first failing scheme-builder function ends AddToScheme. |
| Builder.SchemesStopAt | pkg/builder/builder.go:78-82 | The first failing scheme ends the loop over the schemes. |
| Builder.Server.SetPrioritiesOn | pkg/builder/builder.go:59-71 | Each group's sorted versions become its priority, in map order, and the first error stops the loop. |
| Builder.Server.InstallGroupVersions | pkg/builder/builder.go:72-74 | Every ordered group version is installed on the scheme, in order. |
| Builder.Server.PriorityStepOn | pkg/builder/builder.go:51-76 | The registered function sets each group's sorted version priority in map order, stops at the first error, and then installs every ordered group version. |
| Builder.Server.RunStepOn | pkg/builder/builder.go:50-82 | One registered function runs on the scheme: either an object registration or the priority function. |
| Builder.Server.RunSchemeBuilder | pkg/builder/builder.go:78-82 | SchemeBuilder.AddToScheme runs the registered functions in order until one fails. |
| Builder.Server.Build | pkg/builder/builder.go:48-92 | One scheme use and the priority function are added. A scheme-builder error panics. With accumulated errors there is no command, only the errs value holding all of them. Otherwise the command serves the ordered group versions. |
| Builder.Server.Execute | pkg/builder/builder.go:95-101 | The command runs exactly when Build returned one. Build's error or panic is returned instead. |
| Register.AddConversion | pkg/builder/resource/register.go:37-46 | A conversion is added exactly when both types are pointers. Otherwise the error names the first non-pointer argument and nothing changes. |
| Register.SubResourceTypes | pkg/builder/resource/register.go:66-75 | Exactly each arbitrary subresource's New type, under the object's group version, unless it is the parent's own type. |
| Register.InternalErrorFinds | pkg/builder/builder.go:67 | SetVersionPriority's loop reports an internal version exactly when the list holds one. |
| Register.InternalError | pkg/builder/builder.go:67 | A reported error names an internal version from the list. |
| Register.SetPriorityAccepts | pkg/builder/builder.go:67 | SetVersionPriority succeeds exactly when the list is non-empty and no version is internal, and then records the versions, in order, as the group's priority. An empty list fails with the one-group error, and a failure changes nothing. |
| Register.Scheme.constructor | pkg/builder/resource/register.go:20-21 | A scheme starts with empty tables. |
| Register.Scheme.AddConversionFunc | pkg/builder/resource/register.go:37-46 | It updates the scheme as AddConversion specifies. |
| Register.Scheme.AddVersions | pkg/builder/resource/register.go:24-47 | New and NewList go under the object's own group version. Then either the internal version (for a storage version) or the two conversions are added. |
| Register.Scheme.AddExtras | pkg/builder/resource/register.go:48-75 | It adds the defaulter, the status type, the Scale types, and the arbitrary subresource types. |
| Register.Scheme.AddSubResourceTypes | pkg/builder/resource/register.go:66-75 | The loop adds exactly SubResourceTypes to the known types. |
| Register.Scheme.AddObject | pkg/builder/resource/register.go:23-75 | One iteration of the loop body. |
| Register.Scheme.SetVersionPriority | pkg/builder/builder.go:67 | It updates the scheme as SetPriority specifies. |
| Register.Scheme.AddToGroupVersion | pkg/builder/builder.go:73 | It appends the group version to the installed ones. |
| Register.Scheme.AddToScheme | pkg/builder/resource/register.go:20-79 | The loop registers the objects in order and stops with the first error. |
| Register.FailureIsFinal | pkg/builder/resource/register.go:22-41 | Once a prefix of the objects has failed, the remaining objects are not looked at. |
| Register.RegistrationGrows | pkg/builder/resource/register.go:20-79 | Registration only adds known types, conversions, defaulters and Scale installs. Priorities and installs are untouched. |
| Register.EveryObjectRegistered | pkg/builder/resource/register.go:24-52 | On success, every object's New and NewList are known under its group version. A storage version's are also known under (group, "__internal"). Every Defaulter has a defaulting function. |
| Register.StopsAtFirstFailure | pkg/builder/resource/register.go:22-77 | A failing AddToScheme returns the error of the first failing object. What the earlier objects registered stays. |
| Register.NotMultiVersionFails | pkg/builder/resource/register.go:30-34 | A non-storage version that is not a MultiVersionObject fails with that error after its own types were added. |
| Register.ConversionsBothWays | pkg/builder/resource/register.go:36-46 | A multi-version object adds the conversion to the storage version and then the one back. A non-pointer type fails at the first, and its error is returned. |
| Register.DefaulterIff | pkg/builder/resource/register.go:48-52 | A defaulting function is registered if and only if the object is a Defaulter (or one was already registered). |
| Register.SubResourceTypesRegistered | pkg/builder/resource/register.go:54-75 | The status type is registered when GetStatus is an object. Each arbitrary subresource type is registered unless it is the parent's type. A scale object leaves Scale recognised. |
| Register.ScaleInstalledOnce | pkg/builder/resource/register.go:59-65 | Over any sequence of objects, the Scale types are installed at most once, and never once Scale is recognised. |
| Sorting.LexLessIrreflexive | pkg/builder/builder.go:61 | Lexicographic order on strings is irreflexive. |
| Sorting.LexLessTransitive | pkg/builder/builder.go:61 | The order is transitive. |
| Sorting.LexLessTotal | pkg/builder/builder.go:61 | The order is total. |
| Sorting.LexLessAsymmetric | pkg/builder/builder.go:61 | The order is asymmetric. |
| Sorting.Insert | pkg/builder/builder.go:57-61 | Inserting into a strictly sorted list keeps it strictly sorted, and adds exactly the new element. |
| Sorting.HeadIsLeast | pkg/builder/builder.go:61 | The head of a strictly sorted list is its least element. |
| Sorting.SameElementsSameEmptiness | pkg/builder/builder.go:61 | Lists with the same elements are empty together. |
| Sorting.SortedUnique | pkg/builder/builder.go:61 | Two strictly sorted lists with the same elements are equal, so the sorted list of a set is unique. |
| Sorting.SortedList | pkg/builder/builder.go:61 | sets.String.List() is the strictly sorted list of exactly the set's elements. |
| Sorting.List | pkg/builder/builder.go:61 | The loop computes the sorted list of the set. |
| Strings.JoinCons | pkg/builder/storage_provider.go:363 | Joining head and rest is head followed by the separator before each element of the rest. |
| Strings.Decimal | sample/pkg/apis/sample/v1alpha1/fortune.go:44 | %d yields at least one digit, all digits, with no leading zero. |
| Strings.DecimalRoundTrip | sample/pkg/apis/sample/v1alpha1/fortune.go:44 | Parsing %d of n gives n back. |
| Strings.DecimalInjective | sample/pkg/apis/sample/v1alpha1/fortune.go:44 | Distinct numbers print differently, so row numbers identify rows. |
| Flunders.SwitchErrors | sample/pkg/apis/sample/v1alpha1/flunders.go:121-132 | The switch reports at most one error, on a child of the spec path other than referenceType. |
| Flunders.ValidateFlunderSpec | sample/pkg/apis/sample/v1alpha1/flunders.go:118-139 | At most two errors, each on a direct child of the given path. |
| Flunders.ValidateAcceptsExactly | sample/pkg/apis/sample/v1alpha1/flunders.go:118-139 | There are no errors exactly when the spec is acceptable: empty, or exactly one reference set with its type naming it. |
| Flunders.ValidateReportsBothReferences | sample/pkg/apis/sample/v1alpha1/flunders.go:122-123 | With both references set, the first error is on spec.fischerReference, "cannot be set with flunderReference at the same time", whatever the type. |
| Flunders.ValidateReportsUnknownType | sample/pkg/apis/sample/v1alpha1/flunders.go:134-136 | A type outside {"", Flunder, Fischer} gives, as the last error, "must be Flunder or Fischer" on referenceType, and only such a type does. |
| Flunders.ValidateReportsMissingReference | sample/pkg/apis/sample/v1alpha1/flunders.go:128-131 | With no reference set, type Fischer gives exactly the missing-fischerReference error, and type Flunder the missing-flunderReference one. |
| Flunders.Validate | sample/pkg/apis/sample/v1alpha1/flunders.go:106-110 | Every error path is rooted at "spec", one level down. |
| Flunders.ValidateUpdate | sample/pkg/apis/sample/v1alpha1/flunders.go:113-115 | It ignores the old object and equals Validate. |
| Flunders.AcceptedExamples | sample/pkg/apis/sample/v1alpha1/flunders.go:118-138 | An empty spec, and a Flunder reference with type Flunder, give no errors. |
| Fortune.TrimSpace | sample/pkg/apis/sample/v1alpha1/fortune.go:39 | The result is a slice of the input that neither starts nor ends with white space. |
| Fortune.TrimSpaceRemovesSpaces | sample/pkg/apis/sample/v1alpha1/fortune.go:39 | What TrimSpace cuts off at either end is white space only. |
| Fortune.TrimSpaceIdempotent | sample/pkg/apis/sample/v1alpha1/fortune.go:39 | Trimming twice is trimming once. |
| Fortune.ReplaceByte | sample/pkg/apis/sample/v1alpha1/fortune.go:37-38 | Same length; each byte equal to `from` becomes `to`, and the others are kept. |
| Fortune.Flatten | sample/pkg/apis/sample/v1alpha1/fortune.go:37-38 | Same length and no newline or tab left. Each byte is kept, or is a newline or tab turned into a space. |
| Fortune.CellValue | sample/pkg/apis/sample/v1alpha1/fortune.go:37-42 | A cell never exceeds 60 bytes. |
| Fortune.CellValueSingleLine | sample/pkg/apis/sample/v1alpha1/fortune.go:37-42 | A cell never holds a newline or a tab. |
| Fortune.CellValueTruncates | sample/pkg/apis/sample/v1alpha1/fortune.go:40-42 | A normalised value over 60 bytes becomes its first 57 bytes plus "...", exactly 60. A shorter one is unchanged. |
| Fortune.CellValueKeepsShort | sample/pkg/apis/sample/v1alpha1/fortune.go:37-42 | A value that is already short, single-line and trimmed is shown as it is. |
| Fortune.IndexFrom | sample/pkg/apis/sample/v1alpha1/fortune_storage.go:54 | A found separator index is at or after the start and really holds the separator. |
| Fortune.IndexFromFirst | sample/pkg/apis/sample/v1alpha1/fortune_storage.go:54 | The index found is the first occurrence; none found means no occurrence from the start. |
| Fortune.Split | sample/pkg/apis/sample/v1alpha1/fortune_storage.go:54-77 | strings.Split always yields at least one piece. |
| Fortune.SplitJoin | sample/pkg/apis/sample/v1alpha1/fortune_storage.go:54-77 | Joining the pieces with the separator gives the input back. |
| Fortune.SplitPiecesFree | sample/pkg/apis/sample/v1alpha1/fortune_storage.go:54-77 | No piece contains the separator. |
| Fortune.FirstPieceFree | sample/pkg/apis/sample/v1alpha1/fortune_storage.go:77-79 | The first piece contains no separator. |
| Fortune.Rows | sample/pkg/apis/sample/v1alpha1/fortune.go:43-77 | One row per item. |
| Fortune.RowsNumbered | sample/pkg/apis/sample/v1alpha1/fortune.go:43-48 | Row k carries item k, its number parses back to k, and its cell is within 60 bytes. |
| Fortune.TableConverter.constructor | sample/pkg/apis/sample/v1alpha1/fortune.go:62 | An empty converter with counter 0. |
| Fortune.TableConverter.Convert | sample/pkg/apis/sample/v1alpha1/fortune.go:35-49 | It appends one row [counter, cell of the value] for the object, advances the counter by one, and changes nothing else. |
| Fortune.TableConverter.ConvertAll | sample/pkg/apis/sample/v1alpha1/fortune.go:75 | Converting each item from an empty converter gives the rows numbered from 0 in item order. |
| Fortune.TableConverter.SetOptions | sample/pkg/apis/sample/v1alpha1/fortune.go:51-58 | The Number and Fortune columns are set unless the options are TableOptions with NoHeaders. Nothing else changes. |
| Fortune.ConvertFortune | sample/pkg/apis/sample/v1alpha1/fortune.go:61-70 | A single-object table has exactly one row, numbered "0", and carries the object's resourceVersion and selfLink. |
| Fortune.ConvertFortuneList | sample/pkg/apis/sample/v1alpha1/fortune.go:73-84 | A list table has one row per item in item order, and carries the list's metadata. |
| FortuneStorage.Get | sample/pkg/apis/sample/v1alpha1/fortune_storage.go:68-86 | Get returns NotFound exactly when the trimmed output is empty. Otherwise Value is the trimmed output: non-empty and free of surrounding white space. |
| FortuneStorage.NamedGetFirstFortune | sample/pkg/apis/sample/v1alpha1/fortune_storage.go:76-81 | A named Get keeps only the first "\n%\n"-separated segment, so its value never contains the separator. |
| FortuneStorage.SelectedFortunesTrimmed | sample/pkg/apis/sample/v1alpha1/fortune_storage.go:55-63 | Blank segments are skipped and the rest are trimmed: at most one fortune per segment, none empty or padded. |
| FortuneStorage.SelectorListBounded | sample/pkg/apis/sample/v1alpha1/fortune_storage.go:50-64 | A selector List looks only at segments 0..5, so it returns at most 6 fortunes, none empty. |
| FortuneStorage.EqualsIndex | sample/pkg/apis/sample/v1alpha1/fortune_storage.go:35 | SplitN(s, "=", 2) splits at the first "=", or not at all when there is none. |
| FortuneStorage.List | sample/pkg/apis/sample/v1alpha1/fortune_storage.go:34-65 | A selector without "=" performs exactly 5 Gets, and the first error aborts with no list. Otherwise the program runs once with what follows the first "=", and the result is the selected fortunes of its output. |
| FortuneStorage.ListUnnamed | sample/pkg/apis/sample/v1alpha1/fortune_storage.go:37-48 | Five unnamed Gets in order: the error of the first failing one, or the five fortunes. |
| FortuneStorage.ListMatching | sample/pkg/apis/sample/v1alpha1/fortune_storage.go:50-64 | The loop keeps the non-blank trimmed segments among the first six, in order. |
| FortuneStorage.FirstFailureIs | sample/pkg/apis/sample/v1alpha1/fortune_storage.go:40-44 | The first failing Get is the one whose error List returns. |
| FortuneStorage.ConvertToTable | sample/pkg/apis/sample/v1alpha1/fortune_storage.go:23-31 | An unknown type is an error, and only an unknown type is. A Fortune gives the whole one-row table ConvertFortune builds, and a list the table ConvertFortuneList builds: the columns unless headers are off, the rows, and the metadata. |
| Example.PrintResource | internal/example/v1alpha1/example.go:100-107 | The row's cells are exactly [Name], and its object is the resource. |
| Example.ConvertToTable | internal/example/v1alpha1/example.go:77-88 | The Name column and exactly one row, for the resource. |
| Example.ConvertListToTable | internal/example/v1alpha1/example.go:90-98 | The same Name column, and one row per item in item order, each row's object being its own item. |
| Example.LoopVariable.constructor | internal/example/v1alpha1/example.go:94 | The loop's range variable starts at the zero value. |
| Example.ConvertListToTableAsWritten | internal/example/v1alpha1/example.go:94-95 | The names come out right, but every row points to the one range variable, which ends holding the last item. Every row's object is then what AliasedObjects gives, and with two different items the first row does not show the first item. |
| Example.AliasedObjects | internal/example/v1alpha1/example.go:94-95 | After the loop as written, every row's object is the last item. |
| Example.AliasedRowsShowLastItem | internal/example/v1alpha1/example.go:94-95 | With two distinct items, the first row's object is the second item, so the objects differ from the items. |
| Example.VersionsShareStorage | internal/example/v1alpha1/example.go:61-63 | v1alpha1 and v1beta1 share the group-resource example.com/exampleresources, in different group versions. |
| Example.ExampleVersionsRegister | internal/example/v1alpha1/example.go:61-67 | Registering v1alpha1 (the storage version) and then v1beta1 succeeds, with both conversions between them. |
| Example.ExampleServerWithResource | pkg/builder/example_test.go:60-69 | v1alpha1 is routed to its own store and v1beta1 only to the shared singleton's Get. There is one singleton, and the group versions are in registration order. |
| CodeGen.DigitRun | tools/apiserver-runtime-gen/main.go:209 | The longest run of leading digits: all digits, followed by a non-digit or the end. |
| CodeGen.ComposedIsVersion | tools/apiserver-runtime-gen/main.go:209 | Every string built from the regex's parts ("v", digits, optional alpha or beta with digits) matches. |
| CodeGen.VersionIsComposed | tools/apiserver-runtime-gen/main.go:209 | Every match splits into those parts. |
| CodeGen.VersionIff | tools/apiserver-runtime-gen/main.go:209 | A name matches if and only if it is built from the regex's parts. |
| CodeGen.AcceptsStable | tools/apiserver-runtime-gen/main.go:209 | "v1" and "v10" match. |
| CodeGen.AcceptsAlpha | tools/apiserver-runtime-gen/main.go:209 | "v1alpha1" matches. |
| CodeGen.AcceptsBeta | tools/apiserver-runtime-gen/main.go:209 | "v2beta3" matches. |
| CodeGen.RejectedVersions | tools/apiserver-runtime-gen/main.go:209 | "v1alpha", "alpha1", "v1gamma1" and "v" do not match. |
| CodeGen.PreRun | tools/apiserver-runtime-gen/main.go:27-35 | With an empty module, it errors with "must specify module" (checked first). Otherwise, with no versions, "must specify versions". Otherwise nil. |
| CodeGen.NonEmpty | tools/apiserver-runtime-gen/main.go:98 | The elements path.Join keeps: exactly the non-empty ones. |
| CodeGen.Dir | tools/apiserver-runtime-gen/main.go:233 | path.Dir of a clean path drops its last element. Only "/" and "." are their own parent. |
| CodeGen.Ancestors | tools/apiserver-runtime-gen/main.go:227-240 | The directories findModuleRoot visits: the start first, ending at the fixpoint of Dir. |
| CodeGen.AncestorsChain | tools/apiserver-runtime-gen/main.go:233-237 | Each ancestor is the proper parent of the one before it. |
| CodeGen.ModuleRoot | tools/apiserver-runtime-gen/main.go:227-240 | The nearest ancestor, dir included, holding go.mod, or "" exactly when none does. |
| CodeGen.FindModuleRoot | tools/apiserver-runtime-gen/main.go:227-240 | The loop returns ModuleRoot. |
| CodeGen.ModuleRootNearest | tools/apiserver-runtime-gen/main.go:227-240 | The root found is never farther up than any ancestor known to hold go.mod. |
| CodeGen.VersionDirs | tools/apiserver-runtime-gen/main.go:187-195 | Exactly the subdirectories whose name matches the regex, each as module/pkg/apis/group/version. |
| CodeGen.FirstUnreadable | tools/apiserver-runtime-gen/main.go:182-186 | The first group directory that cannot be listed, if any. |
| CodeGen.GroupVersions | tools/apiserver-runtime-gen/main.go:187-195 | The inner loop yields VersionDirs. |
| CodeGen.DefaultVersions | tools/apiserver-runtime-gen/main.go:179-200 | With no pkg/apis listing there are no defaults. An unlistable group directory ends the program. Otherwise the defaults are the version directories of every group, in listing order. |
| CodeGen.CmdFor | tools/apiserver-runtime-gen/main.go:219-225 | The arguments are [bin/cmd, "--output-base", output, "--go-header-file", header], followed by the extra arguments in order. |
| CodeGen.GetCmd | tools/apiserver-runtime-gen/main.go:219-225 | The method builds that command. |
| CodeGen.Rank | tools/apiserver-runtime-gen/main.go:94-144 | Each generator's position in the fixed order deepcopy, openapi, client, lister, informer. |
| CodeGen.Commands | tools/apiserver-runtime-gen/main.go:94-144 | One command per generator. |
| CodeGen.CommandsAppend | tools/apiserver-runtime-gen/main.go:94-144 | The commands of a concatenation are the concatenation of the commands. |
| CodeGen.PlanIsSelected | tools/apiserver-runtime-gen/main.go:94-144 | What doGen runs, when nothing fails, is the commands of the selected generators in the fixed order. |
| CodeGen.ChosenCommands | tools/apiserver-runtime-gen/main.go:94-102 | One block runs its generator's command exactly when that generator was flagged. |
| CodeGen.SelectedMembers | tools/apiserver-runtime-gen/main.go:89-92 | The generators selected are exactly the flagged ones doGen knows. |
| CodeGen.SelectedInOrder | tools/apiserver-runtime-gen/main.go:86-147 | Each generator runs at most once, and in the fixed order, whatever the flag order or repetitions. |
| CodeGen.Selection | tools/apiserver-runtime-gen/main.go:89-92 | The gen map holds true for exactly the flagged names. |
| CodeGen.ExecutionStopsAtFirstFailure | tools/apiserver-runtime-gen/main.go:86-147 | The commands started are a prefix of the plan. Either all ran and none failed, or the last one started failed, it alone, and its error is returned. |
| CodeGen.ExecutionAppend | tools/apiserver-runtime-gen/main.go:86-147 | The second part of a plan runs only when the first part had no failure. |
| CodeGen.RunBlock | tools/apiserver-runtime-gen/main.go:94-102 | One `if gen[...]` block starts its command exactly when the generator was flagged. |
| CodeGen.DoGen | tools/apiserver-runtime-gen/main.go:86-147 | doGen runs the plan for the flagged set: the fixed order, duplicates once, stopping at the first failure. |

## Left out

- sync.Once: the singleton is a sequential memo. Blocking of concurrent first callers is not modelled.
- Providers and storages are descriptors.
  - Building real storages (pkg/builder/rest/rest.go, pkg/builder/rest/rest_subresource.go, the experimental storages) is not part of this model.
  - What a provider returns when it runs is a parameter.
  - The interfaces in pkg/builder/resource/subresource_types.go are not part of this model. A ConnectorSubResource or GetterUpdaterSubResource is taken to be a named subresource that also implements Connecter or Getter and Updater.
- connectorSubResourceStorage.NewConnectOptions and ConnectMethods are pure delegation to the connector and are not modelled. Connect is modelled as a forwarded call, and the HTTP handler it returns is not modelled.
- Objects are reduced to kind, resourceVersion, spec, status and scale.
  - util.DeepCopy is modelled as a record copy, because its reflective code is not part of this model. When a type cannot be copied, the target keeps its fields, and the error passed to utilruntime.HandleError is not modelled.
  - Error messages of the Kubernetes libraries are approximated by their kind and the names they mention.
- StorageProvider.WrongScaleObject: the error message formats the object with `%v`; the model prints the object's type name instead, because Go's value formatting is not modelled.
- Strings.Join: no contract of its own. Its meaning is stated by JoinCons and by ErrsError.
- autoscalingv1.AddToScheme is taken never to fail.
- Iteration order:
  - Go's map iteration order over the groups in Build is a parameter (`groupOrder`).
  - Among distinct groups, the order changes nothing the model states about the priorities.
- Process bootstrap is not modelled: cobra, flags, the server options, the signal handler, the logging, and klog.Fatalf's exit (an `exited` flag).
- The external `fortune` program is not modelled. Its output for each run is a parameter, and the sample group version is a parameter too.
- sample/pkg/apis/sample/v1alpha1/fortune.go:139-204 repeats ConvertToTable, List and Get of fortune_storage.go. The model cites only the latter.
- Code generator:
  - runE is not modelled: the GOBIN/HOME lookup, the generator installation, the temporary directory, the symlink and the stderr messages.
  - Each generator command's failure is looked up in a map.
  - run's echo of the command is not modelled.
  - Paths are clean paths, and JoinPath joins already clean elements without cleaning them.
  - The default versions are computed with the module path passed in. In the source they are computed before the flags are parsed, so with the default module.
  - Resolving the module path from go.mod (modfile.ModulePath) is not modelled.
- Resource descriptor methods:
  - the Fortune and Flunder descriptor methods (GetGroupVersionResource, IsStorageVersion, NamespaceScoped, New, NewList) are constants and are not modelled;
  - the example resource's descriptor methods are constants of `example.dfy`.
- Builder: nothing in pkg/builder (builder.go, builder_resource.go, builder_general.go, builder_auth.go, builder_admission.go) appends to `a.errs`. The model keeps the field and Build's check of it.
- Builder.Server.apis: the route table is modelled as the Server's own field, starting empty. In Go, `apiserver.APIs` is a package-level map shared by every Server, and internal/sample-apiserver/main.go writes it directly. Those outside writes, and sharing between Servers, are not modelled, and `Valid()` (every route's group version is registered) holds only for routes added through the builder.

## Findings

| source | as written | input that shows it | evidently intended | confidence | as-written member | corrected member |
|---|---|---|---|---|---|---|
| internal/example/v1alpha1/example.go:94-95 | The loop takes `&c` of the range variable for every row's object. | A list of two resources with different names: both rows' objects are the second resource. | Each row's object is its own item. | medium, not executed; holds under Go's loop-variable semantics before Go 1.22 | Example.ConvertListToTableAsWritten, Example.AliasedRowsShowLastItem | Example.ConvertListToTable |
