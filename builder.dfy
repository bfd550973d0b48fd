/**
 * pkg/builder/builder_resource.go and pkg/builder/builder.go: the Server's
 * registration tables (singleton providers per group-resource, the route
 * table from group-version-resource to provider, the ordered group
 * versions, the scheme builder) and Build.
 */
module Builder {
  import opened Wrappers
  import opened Strings
  import opened Schema
  import opened Errors
  import opened Storage
  import opened Resource
  import opened RestProvider
  import opened StorageProvider
  import opened Register
  import opened Sorting
  import opened Seqs

  /** A function registered into the Server's runtime.SchemeBuilder. */
  datatype SchemeStep =
    | ObjectsStep(objs: seq<ResourceObject>) // resource.AddToScheme(objs...)
    | PriorityStep                           // the version-priority function Build registers

  /** What Build returns: the command (holding the group versions it serves), the errs value, or a panic. */
  datatype BuildResult = Command(groupVersions: seq<GroupVersion>) | BuildFailed(err: Error) | BuildPanic(err: Error)

  predicate Distinct<T(==)>(s: seq<T>) {
    forall i, j :: 0 <= i < j < |s| ==> s[i] != s[j]
  }

  // ---------------------------------------------------------------------
  // Specifications of the registration steps
  // ---------------------------------------------------------------------

  /** withGroupVersions: the versions not seen before, appended in first-seen order. */
  function AppendNew(ordered: seq<GroupVersion>, versions: seq<GroupVersion>): seq<GroupVersion> {
    if |versions| == 0 then ordered
    else
      var prev := AppendNew(ordered, versions[..|versions| - 1]);
      if versions[|versions| - 1] in prev then prev else prev + [versions[|versions| - 1]]
  }

  /** The ordered list keeps its prefix, never holds a group version twice, and holds exactly the versions seen. */
  lemma {:induction false} AppendNewDistinct(ordered: seq<GroupVersion>, versions: seq<GroupVersion>)
    requires Distinct(ordered)
    ensures var r := AppendNew(ordered, versions);
      Distinct(r) && ordered <= r && forall gv :: gv in r <==> gv in ordered || gv in versions
    decreases |versions|
  {
    if |versions| > 0 {
      var init := versions[..|versions| - 1];
      AppendNewDistinct(ordered, init);
      assert forall gv :: gv in versions <==> gv in init || gv == versions[|versions| - 1];
    }
  }

  /** The route to the subresource `name` of a resource. */
  function SubResourceGVR(gvr: GroupVersionResource, name: string): GroupVersionResource {
    gvr.ToGroupVersion().WithResource(gvr.resource + "/" + name)
  }

  /** The routes of the arbitrary subresources: each served through a ParentStaticHandlerProvider. */
  function ArbitraryRoutes(gvr: GroupVersionResource, parent: Provider, subs: seq<SubResourceDecl>): (r: seq<(GroupVersionResource, Provider)>)
    ensures |r| == |subs|
    ensures forall i :: 0 <= i < |subs| ==>
      var route := SubResourceGVR(gvr, subs[i].name);
      r[i] == (route, SubResourceGet(route, parent, Some(ParentStatic(subs[i].storage, parent))))
  {
    if |subs| == 0 then []
    else
      var route := SubResourceGVR(gvr, subs[|subs| - 1].name);
      ArbitraryRoutes(gvr, parent, subs[..|subs| - 1]) +
      [(route, SubResourceGet(route, parent, Some(ParentStatic(subs[|subs| - 1].storage, parent))))]
  }

  /** withSubResourceIfExists: the routes it sets, in order. */
  function SubResourceRoutes(obj: ResourceObject, parent: Provider): seq<(GroupVersionResource, Provider)> {
    var status := SubResourceGVR(obj.gvr, "status");
    var scale := SubResourceGVR(obj.gvr, "scale");
    (if obj.withStatus then [(status, SubResourceGet(status, parent, None))] else []) +
    (if obj.withScale then [(scale, SubResourceGet(scale, parent, None))] else []) +
    (if obj.arbitrary.Some? then ArbitraryRoutes(obj.gvr, parent, obj.arbitrary.value) else [])
  }

  /** Setting the routes one after the other; a later route for the same key replaces an earlier one. */
  function ApplyRoutes(apis: map<GroupVersionResource, Provider>, routes: seq<(GroupVersionResource, Provider)>): map<GroupVersionResource, Provider> {
    if |routes| == 0 then apis
    else ApplyRoutes(apis, routes[..|routes| - 1])[routes[|routes| - 1].0 := routes[|routes| - 1].1]
  }

  /**
   * Every subresource route is a path below the resource, in the resource's
   * group version, served by a subresource provider over the same parent
   * provider as the resource: status and scale with no sub-provider, every
   * arbitrary subresource with a ParentStaticHandlerProvider over that parent.
   */
  lemma SubResourceRoutesShareParent(obj: ResourceObject, parent: Provider)
    ensures var routes := SubResourceRoutes(obj, parent);
      forall k :: 0 <= k < |routes| ==>
        var (gvr, p) := routes[k];
        gvr.ToGroupVersion() == obj.gvr.ToGroupVersion() &&
        HasPrefix(gvr.resource, obj.gvr.resource + "/") && '/' in gvr.resource &&
        p == SubResourceGet(gvr, parent, p.sub) &&
        (p.sub.None? ==> gvr.resource == obj.gvr.resource + "/status" || gvr.resource == obj.gvr.resource + "/scale") &&
        (p.sub.Some? ==> p.sub.value.ParentStatic? && p.sub.value.parent == parent)
  {
    var routes := SubResourceRoutes(obj, parent);
    forall k | 0 <= k < |routes|
      ensures var (gvr, p) := routes[k]; HasPrefix(gvr.resource, obj.gvr.resource + "/") && '/' in gvr.resource
    {
      var res := routes[k].0.resource;
      var prefix := obj.gvr.resource + "/";
      assert res[..|prefix|] == prefix;
      assert res[|prefix| - 1] == '/';
    }
  }

  /** The keys after applying routes are the old keys and the routes' keys. */
  lemma {:induction false} ApplyRoutesDomain(apis: map<GroupVersionResource, Provider>, routes: seq<(GroupVersionResource, Provider)>)
    ensures forall gvr :: gvr in ApplyRoutes(apis, routes) <==> gvr in apis || exists k :: 0 <= k < |routes| && routes[k].0 == gvr
    decreases |routes|
  {
    if |routes| > 0 {
      var init := routes[..|routes| - 1];
      ApplyRoutesDomain(apis, init);
      assert forall k :: 0 <= k < |init| ==> init[k] == routes[k];
    }
  }

  /** A key no route names keeps its provider. */
  lemma {:induction false} ApplyRoutesUntouched(apis: map<GroupVersionResource, Provider>, routes: seq<(GroupVersionResource, Provider)>, gvr: GroupVersionResource)
    requires gvr in apis && forall k :: 0 <= k < |routes| ==> routes[k].0 != gvr
    ensures gvr in ApplyRoutes(apis, routes) && ApplyRoutes(apis, routes)[gvr] == apis[gvr]
    decreases |routes|
  {
    if |routes| > 0 {
      var init := routes[..|routes| - 1];
      assert forall k :: 0 <= k < |init| ==> init[k] == routes[k];
      ApplyRoutesUntouched(apis, init, gvr);
    }
  }

  /** The last route for a key decides its provider. */
  lemma {:induction false} ApplyRoutesLast(apis: map<GroupVersionResource, Provider>, routes: seq<(GroupVersionResource, Provider)>, k: nat)
    requires k < |routes| && forall j :: k < j < |routes| ==> routes[j].0 != routes[k].0
    ensures routes[k].0 in ApplyRoutes(apis, routes) && ApplyRoutes(apis, routes)[routes[k].0] == routes[k].1
    decreases |routes|
  {
    if k < |routes| - 1 {
      var init := routes[..|routes| - 1];
      assert forall j :: 0 <= j < |init| ==> init[j] == routes[j];
      ApplyRoutesLast(apis, init, k);
    }
  }

  /** Applying routes sets exactly their keys: the last route for a key wins, other keys keep their providers. */
  lemma ApplyRoutesKeys(apis: map<GroupVersionResource, Provider>, routes: seq<(GroupVersionResource, Provider)>)
    ensures var r := ApplyRoutes(apis, routes);
      (forall gvr :: gvr in r <==> gvr in apis || exists k :: 0 <= k < |routes| && routes[k].0 == gvr) &&
      (forall gvr :: gvr in apis && (forall k :: 0 <= k < |routes| ==> routes[k].0 != gvr) ==> r[gvr] == apis[gvr]) &&
      (forall k :: 0 <= k < |routes| && (forall j :: k < j < |routes| ==> routes[j].0 != routes[k].0) ==> r[routes[k].0] == routes[k].1)
  {
    ApplyRoutesDomain(apis, routes);
    forall gvr | gvr in apis && (forall k :: 0 <= k < |routes| ==> routes[k].0 != gvr)
      ensures ApplyRoutes(apis, routes)[gvr] == apis[gvr]
    {
      ApplyRoutesUntouched(apis, routes, gvr);
    }
    forall k | 0 <= k < |routes| && (forall j :: k < j < |routes| ==> routes[j].0 != routes[k].0)
      ensures ApplyRoutes(apis, routes)[routes[k].0] == routes[k].1
    {
      ApplyRoutesLast(apis, routes, k);
    }
  }

  // ---------------------------------------------------------------------
  // Specifications of Build's scheme work
  // ---------------------------------------------------------------------

  /** The groups among the route keys. */
  function RouteGroups(apis: map<GroupVersionResource, Provider>): set<string> {
    set gvr | gvr in apis :: gvr.group
  }

  /** The distinct versions of group g among the route keys. */
  function RouteVersions(apis: map<GroupVersionResource, Provider>, g: string): set<string> {
    set gvr | gvr in apis && gvr.group == g :: gvr.version
  }

  /** SetVersionPriority for each group in turn, each with its versions sorted; the first error stops it. */
  ghost function SetPriorities(st: SchemeState, apis: map<GroupVersionResource, Provider>, groups: seq<string>): (SchemeState, Option<Error>) {
    if |groups| == 0 then (st, None)
    else
      var prev := SetPriorities(st, apis, groups[..|groups| - 1]);
      var g := groups[|groups| - 1];
      if prev.1.Some? then prev else SetPriority(prev.0, g, SortedList(RouteVersions(apis, g)))
  }

  /** The function Build registers: the version priorities, then AddToGroupVersion for each ordered group version. */
  ghost function RunPriorityStep(st: SchemeState, apis: map<GroupVersionResource, Provider>,
                                 ordered: seq<GroupVersion>, groupOrder: seq<string>): (SchemeState, Option<Error>) {
    var prio := SetPriorities(st, apis, groupOrder);
    if prio.1.Some? then prio else (prio.0.(installed := prio.0.installed + ordered), None)
  }

  ghost function RunStep(st: SchemeState, step: SchemeStep, apis: map<GroupVersionResource, Provider>,
                         ordered: seq<GroupVersion>, groupOrder: seq<string>): (SchemeState, Option<Error>) {
    match step
    case ObjectsStep(objs) => RegisterObjects(st, objs)
    case PriorityStep => RunPriorityStep(st, apis, ordered, groupOrder)
  }

  /** SchemeBuilder.AddToScheme: the registered functions in order, until the first error. */
  ghost function RunSteps(st: SchemeState, steps: seq<SchemeStep>, apis: map<GroupVersionResource, Provider>,
                          ordered: seq<GroupVersion>, groupOrder: seq<string>): (SchemeState, Option<Error>) {
    if |steps| == 0 then (st, None)
    else
      var prev := RunSteps(st, steps[..|steps| - 1], apis, ordered, groupOrder);
      if prev.1.Some? then prev else RunStep(prev.0, steps[|steps| - 1], apis, ordered, groupOrder)
  }

  /** Build's loop over a.schemes, every entry of which is the one global scheme. */
  ghost function RunSchemes(st: SchemeState, n: nat, steps: seq<SchemeStep>, apis: map<GroupVersionResource, Provider>,
                            ordered: seq<GroupVersion>, groupOrder: seq<string>): (SchemeState, Option<Error>) {
    if n == 0 then (st, None)
    else
      var prev := RunSchemes(st, n - 1, steps, apis, ordered, groupOrder);
      if prev.1.Some? then prev else RunSteps(prev.0, steps, apis, ordered, groupOrder)
  }

  /** Group g's priority list holds exactly its distinct route versions, strictly sorted. */
  ghost predicate PriorityIsSortedVersions(r: SchemeState, apis: map<GroupVersionResource, Provider>, g: string) {
    g in r.priorities && StrictlySorted(r.priorities[g]) &&
    forall v :: v in r.priorities[g] <==> exists gvr :: gvr in apis && gvr.group == g && gvr.version == v
  }

  /** Recording a group's sorted route versions gives it the sorted-versions priority. */
  lemma SortedVersionsRecorded(prev: SchemeState, apis: map<GroupVersionResource, Provider>, g: string)
    ensures PriorityIsSortedVersions(prev.(priorities := prev.priorities[g := SortedList(RouteVersions(apis, g))]), apis, g)
  {
    var vs := SortedList(RouteVersions(apis, g));
    forall v
      ensures v in vs <==> exists gvr :: gvr in apis && gvr.group == g && gvr.version == v
    {
      if v in vs {
        assert v in RouteVersions(apis, g);
      }
    }
  }

  /**
   * After the version priorities are set without error, each group's
   * priority list is its distinct route versions in lexicographic order.
   */
  lemma {:induction false} PrioritiesAreSortedVersions(st: SchemeState, apis: map<GroupVersionResource, Provider>, groups: seq<string>)
    requires SetPriorities(st, apis, groups).1.None?
    ensures var r := SetPriorities(st, apis, groups).0;
      r.known == st.known && r.installed == st.installed &&
      forall i :: 0 <= i < |groups| ==> PriorityIsSortedVersions(r, apis, groups[i])
    decreases |groups|
  {
    if |groups| > 0 {
      var init := groups[..|groups| - 1];
      PrioritiesAreSortedVersions(st, apis, init);
      var g := groups[|groups| - 1];
      var prev := SetPriorities(st, apis, init).0;
      var vs := SortedList(RouteVersions(apis, g));
      var r := prev.(priorities := prev.priorities[g := vs]);
      assert SetPriorities(st, apis, groups).0 == r;
      SortedVersionsRecorded(prev, apis, g);
      forall i | 0 <= i < |groups|
        ensures PriorityIsSortedVersions(r, apis, groups[i])
      {
        if groups[i] != g {
          assert groups[i] == init[i];
          assert r.priorities[groups[i]] == prev.priorities[groups[i]];
        }
      }
    }
  }

  /** A group among the route keys has at least one version to prioritise. */
  lemma RouteVersionsNonEmpty(apis: map<GroupVersionResource, Provider>, g: string)
    requires g in RouteGroups(apis)
    ensures |SortedList(RouteVersions(apis, g))| > 0
  {
    var gvr :| gvr in apis && gvr.group == g;
    assert gvr.version in RouteVersions(apis, g);
  }

  /**
   * Over groups taken from the route keys, the empty-list error of
   * SetVersionPriority never arises: the priorities fail only on an internal version.
   */
  lemma {:induction false} PrioritiesFailOnlyOnInternal(st: SchemeState, apis: map<GroupVersionResource, Provider>, groups: seq<string>)
    requires forall i :: 0 <= i < |groups| ==> groups[i] in RouteGroups(apis)
    ensures SetPriorities(st, apis, groups).1.Some? ==>
      exists g, v :: InternalVersion(v) && SetPriorities(st, apis, groups).1.value == InternalVersionError(g, v)
    decreases |groups|
  {
    if |groups| > 0 {
      var init := groups[..|groups| - 1];
      assert forall i :: 0 <= i < |init| ==> init[i] == groups[i];
      PrioritiesFailOnlyOnInternal(st, apis, init);
      var g := groups[|groups| - 1];
      RouteVersionsNonEmpty(apis, g);
      var vs := SortedList(RouteVersions(apis, g));
      if SetPriorities(st, apis, init).1.None? && InternalError(g, vs).Some? {
        var k :| 0 <= k < |vs| && InternalVersion(vs[k]) && InternalError(g, vs).value == InternalVersionError(g, vs[k]);
      }
    }
  }

  /** When the priorities succeed, AddToGroupVersion has run once per ordered group version, in that order. */
  lemma InstalledInOrder(st: SchemeState, apis: map<GroupVersionResource, Provider>, ordered: seq<GroupVersion>, groupOrder: seq<string>)
    requires SetPriorities(st, apis, groupOrder).1.None?
    ensures RunPriorityStep(st, apis, ordered, groupOrder).1.None?
    ensures RunPriorityStep(st, apis, ordered, groupOrder).0.installed == st.installed + ordered
  {
    PrioritiesAreSortedVersions(st, apis, groupOrder);
  }

  // ---------------------------------------------------------------------
  // The Server
  // ---------------------------------------------------------------------

  class Server {
    var errs: seq<Error>
    var storageProvider: map<GroupResource, SingletonProvider<Provider>>
    var groupVersions: set<GroupVersion>
    var orderedGroupVersions: seq<GroupVersion>
    /** apiserver.APIs, the process-wide route table. */
    var apis: map<GroupVersionResource, Provider>
    var schemeBuilder: seq<SchemeStep>
    /** len(a.schemes): every entry is apiserver.Scheme. */
    var schemeUses: nat
    /** apiserver.Scheme */
    const scheme: Scheme
    /** klog.Fatalf has ended the process. */
    var exited: bool

    ghost predicate Valid()
      reads this
    {
      && Distinct(orderedGroupVersions)
      && (forall gv :: gv in groupVersions <==> gv in orderedGroupVersions)
      && (forall gvr | gvr in apis :: gvr.ToGroupVersion() in groupVersions)
      && (forall gvr | gvr in apis && apis[gvr].SingletonGet? :: apis[gvr].key in storageProvider)
      // no singleton wraps another singleton's Get
      && (forall gr | gr in storageProvider :: !storageProvider[gr].provider.SingletonGet?)
    }

    /** builder.APIServer: empty tables over the global scheme. */
    constructor (scheme: Scheme)
      ensures Valid() && this.scheme == scheme
      ensures errs == [] && storageProvider == map[] && groupVersions == {} && orderedGroupVersions == []
      ensures apis == map[] && schemeBuilder == [] && schemeUses == 0 && !exited
    {
      errs := [];
      storageProvider := map[];
      groupVersions := {};
      orderedGroupVersions := [];
      apis := map[];
      schemeBuilder := [];
      schemeUses := 0;
      this.scheme := scheme;
      exited := false;
    }

    /** withGroupVersions */
    method WithGroupVersions(versions: seq<GroupVersion>)
      requires Valid()
      modifies this
      ensures Valid()
      ensures orderedGroupVersions == AppendNew(old(orderedGroupVersions), versions)
      ensures groupVersions == old(groupVersions) + set gv | gv in versions
      ensures errs == old(errs) && storageProvider == old(storageProvider) && apis == old(apis)
      ensures schemeBuilder == old(schemeBuilder) && schemeUses == old(schemeUses) && exited == old(exited)
    {
      var seen, ordered := groupVersions, orderedGroupVersions;
      ghost var seen0, ordered0 := seen, ordered;
      assert Distinct(ordered0) && forall gv :: gv in seen0 <==> gv in ordered0;
      var i := 0;
      while i < |versions|
        invariant 0 <= i <= |versions|
        invariant ordered == AppendNew(ordered0, versions[..i])
        invariant seen == seen0 + set gv | gv in versions[..i]
        modifies {}
      {
        var gv := versions[i];
        assert versions[..i + 1][..i] == versions[..i];
        PrefixExtend(versions, i);
        AppendNewDistinct(ordered0, versions[..i]);
        if gv !in seen {
          seen := seen + {gv};
          ordered := ordered + [gv];
        }
        i := i + 1;
      }
      assert versions[..|versions|] == versions;
      AppendNewDistinct(ordered0, versions);
      groupVersions, orderedGroupVersions := seen, ordered;
    }

    /**
     * forGroupVersionResource: registers the group version, creates a
     * singleton for the group-resource only if it has none, and routes the
     * GVR to `sp` itself.
     */
    method ForGroupVersionResource(gvr: GroupVersionResource, sp: Provider)
      requires Valid()
      requires sp.SingletonGet? ==> sp.key == gvr.ToGroupResource() && sp.key in storageProvider
      modifies this
      ensures Valid()
      ensures orderedGroupVersions == AppendNew(old(orderedGroupVersions), [gvr.ToGroupVersion()])
      ensures groupVersions == old(groupVersions) + {gvr.ToGroupVersion()}
      ensures apis == old(apis)[gvr := sp]
      ensures gvr.ToGroupResource() in storageProvider
      ensures gvr.ToGroupResource() in old(storageProvider) ==> storageProvider == old(storageProvider)
      ensures gvr.ToGroupResource() !in old(storageProvider) ==>
        var s := storageProvider[gvr.ToGroupResource()];
        storageProvider == old(storageProvider)[gvr.ToGroupResource() := s] &&
        fresh(s) && s.provider == sp && !s.done && s.Valid()
      ensures errs == old(errs) && schemeBuilder == old(schemeBuilder) && schemeUses == old(schemeUses) && exited == old(exited)
    {
      WithGroupVersions([gvr.ToGroupVersion()]);
      assert (set gv | gv in [gvr.ToGroupVersion()]) == {gvr.ToGroupVersion()};
      var gr := gvr.ToGroupResource();
      if gr !in storageProvider {
        var s := new SingletonProvider(sp);
        storageProvider := storageProvider[gr := s];
      }
      apis := apis[gvr := sp];
    }

    /**
     * forGroupVersionSubResource: a resource name without "/" ends the
     * process; otherwise the GVR is routed to a subresource provider over
     * the parent and sub providers.
     */
    method ForGroupVersionSubResource(gvr: GroupVersionResource, parent: Provider, sub: Option<Provider>)
      requires Valid() && gvr.ToGroupVersion() in groupVersions
      modifies this
      ensures Valid()
      ensures '/' !in gvr.resource ==> exited && apis == old(apis)
      ensures '/' in gvr.resource ==> exited == old(exited) && apis == old(apis)[gvr := SubResourceGet(gvr, parent, sub)]
      ensures errs == old(errs) && storageProvider == old(storageProvider) && groupVersions == old(groupVersions)
      ensures orderedGroupVersions == old(orderedGroupVersions) && schemeBuilder == old(schemeBuilder) && schemeUses == old(schemeUses)
    {
      if '/' !in gvr.resource {
        exited := true;
        return;
      }
      apis := apis[gvr := SubResourceGet(gvr, parent, sub)];
    }

    /** withSubResourceIfExists */
    method WithSubResourceIfExists(obj: ResourceObject, parent: Provider)
      requires Valid() && obj.gvr.ToGroupVersion() in groupVersions
      modifies this
      ensures Valid()
      ensures apis == ApplyRoutes(old(apis), SubResourceRoutes(obj, parent))
      ensures exited == old(exited)
      ensures errs == old(errs) && storageProvider == old(storageProvider) && groupVersions == old(groupVersions)
      ensures orderedGroupVersions == old(orderedGroupVersions) && schemeBuilder == old(schemeBuilder) && schemeUses == old(schemeUses)
    {
      var routes := SubResourceRoutes(obj, parent);
      SubResourceRoutesShareParent(obj, parent);
      var status := SubResourceGVR(obj.gvr, "status");
      var scale := SubResourceGVR(obj.gvr, "scale");
      var done := 0;
      if obj.withStatus {
        ForGroupVersionSubResource(status, parent, None);
        done := 1;
        assert routes[..1] == [(status, SubResourceGet(status, parent, None))];
      }
      assert apis == ApplyRoutes(old(apis), routes[..done]);
      if obj.withScale {
        ForGroupVersionSubResource(scale, parent, None);
        assert routes[..done + 1] == routes[..done] + [(scale, SubResourceGet(scale, parent, None))];
        done := done + 1;
      }
      assert apis == ApplyRoutes(old(apis), routes[..done]);
      if obj.arbitrary.Some? {
        assert routes == routes[..done] + ArbitraryRoutes(obj.gvr, parent, obj.arbitrary.value);
        WithArbitrarySubResources(obj.gvr, parent, obj.arbitrary.value);
        ApplyRoutesAppend(old(apis), routes[..done], ArbitraryRoutes(obj.gvr, parent, obj.arbitrary.value));
      } else {
        assert routes[..done] == routes;
      }
    }

    /** The loop of withSubResourceIfExists over the arbitrary subresources. */
    method WithArbitrarySubResources(gvr: GroupVersionResource, parent: Provider, subs: seq<SubResourceDecl>)
      requires Valid() && gvr.ToGroupVersion() in groupVersions
      modifies this
      ensures Valid()
      ensures apis == ApplyRoutes(old(apis), ArbitraryRoutes(gvr, parent, subs))
      ensures exited == old(exited)
      ensures errs == old(errs) && storageProvider == old(storageProvider) && groupVersions == old(groupVersions)
      ensures orderedGroupVersions == old(orderedGroupVersions) && schemeBuilder == old(schemeBuilder) && schemeUses == old(schemeUses)
    {
      var routes := ArbitraryRoutes(gvr, parent, subs);
      var i := 0;
      while i < |subs|
        invariant 0 <= i <= |subs| && Valid()
        invariant apis == ApplyRoutes(old(apis), routes[..i])
        invariant exited == old(exited)
        invariant errs == old(errs) && storageProvider == old(storageProvider) && groupVersions == old(groupVersions)
        invariant orderedGroupVersions == old(orderedGroupVersions) && schemeBuilder == old(schemeBuilder) && schemeUses == old(schemeUses)
      {
        var route := SubResourceGVR(gvr, subs[i].name);
        var prefix := gvr.resource + "/";
        assert route.resource[|prefix| - 1] == '/';
        ForGroupVersionSubResource(route, parent, Some(ParentStatic(subs[i].storage, parent)));
        assert routes[..i + 1][..i] == routes[..i];
        i := i + 1;
      }
      assert routes[..|subs|] == routes;
    }

    /**
     * WithResource. A group-resource seen before only gets a route from the
     * new GVR to the existing singleton's Get; otherwise the object itself
     * (when it implements a rest interface) or a default store serves the
     * GVR, and its subresources are routed over that same provider.
     */
    method WithResource(obj: ResourceObject)
      requires Valid()
      modifies this
      ensures Valid()
      ensures schemeBuilder == old(schemeBuilder) + [ObjectsStep([obj])]
      ensures orderedGroupVersions == AppendNew(old(orderedGroupVersions), [obj.gvr.ToGroupVersion()])
      ensures obj.gvr.ToGroupResource() in old(storageProvider) ==>
        storageProvider == old(storageProvider) &&
        apis == old(apis)[obj.gvr := SingletonGet(obj.gvr.ToGroupResource())]
      ensures obj.gvr.ToGroupResource() in storageProvider
      ensures obj.gvr.ToGroupResource() !in old(storageProvider) ==>
        var parent := if obj.restHandler then Static(obj.asStorage) else DefaultStore(obj);
        var s := storageProvider[obj.gvr.ToGroupResource()];
        storageProvider == old(storageProvider)[obj.gvr.ToGroupResource() := s] && fresh(s) && s.provider == parent &&
        apis == ApplyRoutes(old(apis)[obj.gvr := parent], SubResourceRoutes(obj, parent))
      ensures errs == old(errs) && schemeUses == old(schemeUses) && exited == old(exited)
    {
      var gvr := obj.gvr;
      schemeBuilder := schemeBuilder + [ObjectsStep([obj])];
      var gr := gvr.ToGroupResource();
      if gr in storageProvider {
        ForGroupVersionResource(gvr, SingletonGet(gr));
        return;
      }
      var parent := if obj.restHandler then Static(obj.asStorage) else DefaultStore(obj);
      ForGroupVersionResource(gvr, parent);
      WithSubResourceIfExists(obj, parent);
    }

    /** WithResourceAndStrategy: a store with the given strategy, and the subresources over it. */
    method WithResourceAndStrategy(obj: ResourceObject, strategy: nat)
      requires Valid()
      modifies this
      ensures Valid()
      ensures schemeBuilder == old(schemeBuilder) + [ObjectsStep([obj])]
      ensures orderedGroupVersions == AppendNew(old(orderedGroupVersions), [obj.gvr.ToGroupVersion()])
      ensures apis == ApplyRoutes(old(apis)[obj.gvr := StrategyStore(obj, strategy)], SubResourceRoutes(obj, StrategyStore(obj, strategy)))
      ensures obj.gvr.ToGroupResource() in old(storageProvider) ==> storageProvider == old(storageProvider)
      ensures obj.gvr.ToGroupResource() in storageProvider
      ensures obj.gvr.ToGroupResource() !in old(storageProvider) ==>
        var s := storageProvider[obj.gvr.ToGroupResource()];
        storageProvider == old(storageProvider)[obj.gvr.ToGroupResource() := s] &&
        fresh(s) && s.provider == StrategyStore(obj, strategy) && !s.done
      ensures errs == old(errs) && schemeUses == old(schemeUses) && exited == old(exited)
    {
      schemeBuilder := schemeBuilder + [ObjectsStep([obj])];
      var parent := StrategyStore(obj, strategy);
      ForGroupVersionResource(obj.gvr, parent);
      WithSubResourceIfExists(obj, parent);
    }

    /** WithResourceAndHandler: the caller's provider serves the GVR; no subresources are routed. */
    method WithResourceAndHandler(obj: ResourceObject, id: nat)
      requires Valid()
      modifies this
      ensures Valid()
      ensures schemeBuilder == old(schemeBuilder) + [ObjectsStep([obj])]
      ensures orderedGroupVersions == AppendNew(old(orderedGroupVersions), [obj.gvr.ToGroupVersion()])
      ensures apis == old(apis)[obj.gvr := Handler(id)]
      ensures obj.gvr.ToGroupResource() in old(storageProvider) ==> storageProvider == old(storageProvider)
      ensures obj.gvr.ToGroupResource() in storageProvider
      ensures obj.gvr.ToGroupResource() !in old(storageProvider) ==>
        var s := storageProvider[obj.gvr.ToGroupResource()];
        storageProvider == old(storageProvider)[obj.gvr.ToGroupResource() := s] &&
        fresh(s) && s.provider == Handler(id) && !s.done
      ensures errs == old(errs) && schemeUses == old(schemeUses) && exited == old(exited)
    {
      schemeBuilder := schemeBuilder + [ObjectsStep([obj])];
      ForGroupVersionResource(obj.gvr, Handler(id));
    }

    /** WithResourceAndStorage: a store adjusted by the caller's function; no subresources are routed. */
    method WithResourceAndStorage(obj: ResourceObject, fn: nat)
      requires Valid()
      modifies this
      ensures Valid()
      ensures schemeBuilder == old(schemeBuilder) + [ObjectsStep([obj])]
      ensures orderedGroupVersions == AppendNew(old(orderedGroupVersions), [obj.gvr.ToGroupVersion()])
      ensures apis == old(apis)[obj.gvr := FnStore(obj, fn)]
      ensures obj.gvr.ToGroupResource() in old(storageProvider) ==> storageProvider == old(storageProvider)
      ensures obj.gvr.ToGroupResource() in storageProvider
      ensures obj.gvr.ToGroupResource() !in old(storageProvider) ==>
        var s := storageProvider[obj.gvr.ToGroupResource()];
        storageProvider == old(storageProvider)[obj.gvr.ToGroupResource() := s] &&
        fresh(s) && s.provider == FnStore(obj, fn) && !s.done
      ensures errs == old(errs) && schemeUses == old(schemeUses) && exited == old(exited)
    {
      schemeBuilder := schemeBuilder + [ObjectsStep([obj])];
      ForGroupVersionResource(obj.gvr, FnStore(obj, fn));
    }

    /** The version priorities of each group, in `groupOrder`, until the first error. */
    method SetPrioritiesOn(groupOrder: seq<string>) returns (err: Option<Error>)
      modifies scheme
      ensures (scheme.State(), err) == SetPriorities(old(scheme.State()), apis, groupOrder)
    {
      var i := 0;
      while i < |groupOrder|
        invariant 0 <= i <= |groupOrder|
        invariant (scheme.State(), None) == SetPriorities(old(scheme.State()), apis, groupOrder[..i])
      {
        var g := groupOrder[i];
        assert groupOrder[..i + 1][..i] == groupOrder[..i];
        var versions := List(RouteVersions(apis, g));
        err := scheme.SetVersionPriority(g, versions);
        if err.Some? {
          PrefixExtend(groupOrder, i);
          PrioritiesStopAt(old(scheme.State()), apis, groupOrder, i + 1);
          return;
        }
        i := i + 1;
      }
      assert groupOrder[..|groupOrder|] == groupOrder;
      err := None;
    }

    /** AddToGroupVersion for each ordered group version. */
    method InstallGroupVersions()
      modifies scheme
      ensures scheme.State() == old(scheme.State()).(installed := old(scheme.State()).installed + orderedGroupVersions)
    {
      var j := 0;
      while j < |orderedGroupVersions|
        invariant 0 <= j <= |orderedGroupVersions|
        invariant scheme.State() == old(scheme.State()).(installed := old(scheme.State()).installed + orderedGroupVersions[..j])
      {
        scheme.AddToGroupVersion(orderedGroupVersions[j]);
        PrefixExtend(orderedGroupVersions, j);
        j := j + 1;
      }
      assert orderedGroupVersions[..j] == orderedGroupVersions;
    }

    /** The function Build registers, run on the scheme. `groupOrder` is the order Go's map iteration visits the groups. */
    method PriorityStepOn(groupOrder: seq<string>) returns (err: Option<Error>)
      modifies scheme
      ensures (scheme.State(), err) == RunPriorityStep(old(scheme.State()), apis, orderedGroupVersions, groupOrder)
    {
      err := SetPrioritiesOn(groupOrder);
      if err.Some? {
        return;
      }
      InstallGroupVersions();
    }

    /** One registered function of the scheme builder, run on the scheme. */
    method RunStepOn(step: SchemeStep, groupOrder: seq<string>) returns (err: Option<Error>)
      modifies scheme
      ensures (scheme.State(), err) == RunStep(old(scheme.State()), step, apis, orderedGroupVersions, groupOrder)
    {
      if step.ObjectsStep? {
        err := scheme.AddToScheme(step.objs);
      } else {
        err := PriorityStepOn(groupOrder);
      }
    }

    /** SchemeBuilder.AddToScheme(scheme) */
    method RunSchemeBuilder(groupOrder: seq<string>) returns (err: Option<Error>)
      modifies scheme
      ensures (scheme.State(), err) == RunSteps(old(scheme.State()), schemeBuilder, apis, orderedGroupVersions, groupOrder)
    {
      ghost var st0 := scheme.State();
      var i := 0;
      while i < |schemeBuilder|
        invariant 0 <= i <= |schemeBuilder|
        invariant (scheme.State(), None) == RunSteps(st0, schemeBuilder[..i], apis, orderedGroupVersions, groupOrder)
      {
        ghost var before := scheme.State();
        err := RunStepOn(schemeBuilder[i], groupOrder);
        StepsExtend(st0, schemeBuilder, apis, orderedGroupVersions, groupOrder, i, before);
        if err.Some? {
          StepsStopAt(st0, schemeBuilder, apis, orderedGroupVersions, groupOrder, i + 1);
          return;
        }
        i := i + 1;
      }
      assert schemeBuilder[..|schemeBuilder|] == schemeBuilder;
      err := None;
    }

    /**
     * Build: adds the global scheme and the version-priority function, runs
     * the scheme builder on every scheme (an error panics), and then fails
     * with all accumulated errors, if there are any.
     */
    method Build(groupOrder: seq<string>) returns (r: BuildResult)
      requires Distinct(groupOrder) && forall g :: g in groupOrder <==> g in RouteGroups(apis)
      modifies this, scheme
      ensures schemeUses == old(schemeUses) + 1 && schemeBuilder == old(schemeBuilder) + [PriorityStep]
      ensures errs == old(errs) && apis == old(apis) && orderedGroupVersions == old(orderedGroupVersions)
      ensures storageProvider == old(storageProvider) && groupVersions == old(groupVersions) && exited == old(exited)
      ensures var run := RunSchemes(old(scheme.State()), schemeUses, schemeBuilder, apis, orderedGroupVersions, groupOrder);
        scheme.State() == run.0 &&
        r == (if run.1.Some? then BuildPanic(run.1.value)
              else if |errs| != 0 then BuildFailed(Aggregate(errs))
              else Command(orderedGroupVersions))
    {
      schemeUses := schemeUses + 1;
      schemeBuilder := schemeBuilder + [PriorityStep];
      var i := 0;
      while i < schemeUses
        invariant 0 <= i <= schemeUses
        invariant (scheme.State(), None) == RunSchemes(old(scheme.State()), i, schemeBuilder, apis, orderedGroupVersions, groupOrder)
        invariant schemeUses == old(schemeUses) + 1 && schemeBuilder == old(schemeBuilder) + [PriorityStep]
        invariant errs == old(errs) && apis == old(apis) && orderedGroupVersions == old(orderedGroupVersions)
        invariant storageProvider == old(storageProvider) && groupVersions == old(groupVersions) && exited == old(exited)
      {
        var err := RunSchemeBuilder(groupOrder);
        if err.Some? {
          SchemesStopAt(old(scheme.State()), schemeUses, schemeBuilder, apis, orderedGroupVersions, groupOrder, i + 1);
          return BuildPanic(err.value);
        }
        i := i + 1;
      }
      if |errs| != 0 {
        return BuildFailed(Aggregate(errs));
      }
      r := Command(orderedGroupVersions);
    }

    /**
     * Execute: Build, then run the command only when Build returned one;
     * `run` is what running the command returns. A panic in Build propagates.
     */
    method Execute(groupOrder: seq<string>, run: Option<Error>) returns (r: Outcome<()>, ran: bool)
      requires Distinct(groupOrder) && forall g :: g in groupOrder <==> g in RouteGroups(apis)
      modifies this, scheme
      ensures schemeUses == old(schemeUses) + 1 && schemeBuilder == old(schemeBuilder) + [PriorityStep]
      ensures errs == old(errs) && apis == old(apis) && orderedGroupVersions == old(orderedGroupVersions)
      ensures var built := RunSchemes(old(scheme.State()), schemeUses, schemeBuilder, apis, orderedGroupVersions, groupOrder);
        scheme.State() == built.0 &&
        (ran <==> built.1.None? && |errs| == 0) &&
        r == (if built.1.Some? then Panic(Message(built.1.value))
              else if |errs| != 0 then Fail(Aggregate(errs))
              else if run.Some? then Fail(run.value) else Ok(()))
    {
      var cmd := Build(groupOrder);
      match cmd
      case BuildPanic(e) => return Panic(Message(e)), false;
      case BuildFailed(e) => return Fail(e), false;
      case Command(_) =>
        ran := true;
        r := if run.Some? then Fail(run.value) else Ok(());
    }
  }

  /** Applying two runs of routes one after the other is applying their concatenation. */
  lemma {:induction false} ApplyRoutesAppend(apis: map<GroupVersionResource, Provider>, a: seq<(GroupVersionResource, Provider)>, b: seq<(GroupVersionResource, Provider)>)
    ensures ApplyRoutes(apis, a + b) == ApplyRoutes(ApplyRoutes(apis, a), b)
    decreases |b|
  {
    if |b| > 0 {
      assert (a + b)[..|a + b| - 1] == a + b[..|b| - 1];
      ApplyRoutesAppend(apis, a, b[..|b| - 1]);
    } else {
      assert a + b == a;
    }
  }

  lemma {:induction false} PrioritiesStopAt(st: SchemeState, apis: map<GroupVersionResource, Provider>, groups: seq<string>, k: nat)
    requires k <= |groups| && SetPriorities(st, apis, groups[..k]).1.Some?
    ensures SetPriorities(st, apis, groups) == SetPriorities(st, apis, groups[..k])
    decreases |groups|
  {
    if k < |groups| {
      var init := groups[..|groups| - 1];
      assert init[..k] == groups[..k];
      PrioritiesStopAt(st, apis, init, k);
    } else {
      assert groups[..k] == groups;
    }
  }

  /** The steps one longer run the next step on the state the shorter steps left, when they left no error. */
  lemma StepsExtend(st: SchemeState, steps: seq<SchemeStep>, apis: map<GroupVersionResource, Provider>,
                    ordered: seq<GroupVersion>, groupOrder: seq<string>, k: nat, mid: SchemeState)
    requires k < |steps| && RunSteps(st, steps[..k], apis, ordered, groupOrder) == (mid, None)
    ensures RunSteps(st, steps[..k + 1], apis, ordered, groupOrder) == RunStep(mid, steps[k], apis, ordered, groupOrder)
  {
    assert steps[..k + 1][..k] == steps[..k];
  }

  lemma {:induction false} StepsStopAt(st: SchemeState, steps: seq<SchemeStep>, apis: map<GroupVersionResource, Provider>,
                                       ordered: seq<GroupVersion>, groupOrder: seq<string>, k: nat)
    requires k <= |steps| && RunSteps(st, steps[..k], apis, ordered, groupOrder).1.Some?
    ensures RunSteps(st, steps, apis, ordered, groupOrder) == RunSteps(st, steps[..k], apis, ordered, groupOrder)
    decreases |steps|
  {
    if k < |steps| {
      var init := steps[..|steps| - 1];
      assert init[..k] == steps[..k];
      StepsStopAt(st, init, apis, ordered, groupOrder, k);
    } else {
      assert steps[..k] == steps;
    }
  }

  lemma {:induction false} SchemesStopAt(st: SchemeState, n: nat, steps: seq<SchemeStep>, apis: map<GroupVersionResource, Provider>,
                                         ordered: seq<GroupVersion>, groupOrder: seq<string>, k: nat)
    requires k <= n && RunSchemes(st, k, steps, apis, ordered, groupOrder).1.Some?
    ensures RunSchemes(st, n, steps, apis, ordered, groupOrder) == RunSchemes(st, k, steps, apis, ordered, groupOrder)
    decreases n
  {
    if k < n {
      SchemesStopAt(st, n - 1, steps, apis, ordered, groupOrder, k);
    }
  }
}
