/**
 * pkg/builder/resource/register.go: the AddToScheme loop that fills a
 * scheme's known-type, conversion and defaulting tables, together with the
 * parts of the runtime.Scheme it drives.
 */
module Register {
  import opened Wrappers
  import opened Strings
  import opened Schema
  import opened Errors
  import opened Resource

  /**
   * The tables of a runtime.Scheme this code writes: the (group version,
   * type) pairs registered as known types, the conversion functions in
   * registration order, the types with a defaulting function, the version
   * priority per group, the group versions passed to
   * metav1.AddToGroupVersion in call order, and how many times
   * autoscalingv1.AddToScheme has run.
   */
  datatype SchemeState = SchemeState(
    known: set<(GroupVersion, GoType)>,
    conversions: seq<(GoType, GoType)>,
    defaulters: set<GoType>,
    priorities: map<string, seq<string>>,
    installed: seq<GroupVersion>,
    scaleInstalls: nat)

  /** s.Recognizes(autoscalingv1.SchemeGroupVersion.WithKind("Scale")) */
  predicate RecognizesScale(st: SchemeState) {
    (AutoscalingV1, ScaleType) in st.known
  }

  const NotMultiVersion := Plain("resource should implement MultiVersionObject if it's not storage-version")

  /** The error Scheme.AddConversionFunc returns for a non-pointer argument. */
  function NotPointer(arg: string, t: GoType): Error {
    Plain("expected pointer arg for '" + arg + "', got: " + t.name)
  }

  /** Scheme.AddConversionFunc(a, b, fn): both arguments must be pointers. */
  function AddConversion(st: SchemeState, a: GoType, b: GoType): (r: (SchemeState, Option<Error>))
    ensures r.1.None? <==> a.pointer && b.pointer
    ensures r.1.None? ==> r.0 == st.(conversions := st.conversions + [(a, b)])
    ensures r.1.Some? ==> r.0 == st && r.1 == Some(if !a.pointer then NotPointer("a", a) else NotPointer("b", b))
  {
    if !a.pointer then (st, Some(NotPointer("a", a)))
    else if !b.pointer then (st, Some(NotPointer("b", b)))
    else (st.(conversions := st.conversions + [(a, b)]), None)
  }

  /** The known types the arbitrary subresources add: each New() type unless it is the parent's own type. */
  function SubResourceTypes(gv: GroupVersion, self: GoType, subs: seq<SubResourceDecl>): (r: set<(GroupVersion, GoType)>)
    ensures forall i :: 0 <= i < |subs| && subs[i].newType != self ==> (gv, subs[i].newType) in r
    ensures forall p :: p in r ==> p.0 == gv && p.1 != self
  {
    set i | 0 <= i < |subs| && subs[i].newType != self :: (gv, subs[i].newType)
  }

  lemma SubResourceTypesExtend(gv: GroupVersion, self: GoType, subs: seq<SubResourceDecl>, i: nat)
    requires i < |subs|
    ensures SubResourceTypes(gv, self, subs[..i + 1]) ==
      SubResourceTypes(gv, self, subs[..i]) + (if subs[i].newType != self then {(gv, subs[i].newType)} else {})
  {
    assert forall k :: 0 <= k < i ==> subs[..i + 1][k] == subs[..i][k];
  }

  /**
   * The first half of the loop body: New and NewList under the object's own
   * group version, and then either the internal version (a storage version)
   * or the two conversion functions (a MultiVersionObject).
   */
  function RegisterVersions(st: SchemeState, obj: ResourceObject): (SchemeState, Option<Error>) {
    var gv := obj.gvr.ToGroupVersion();
    var s1 := st.(known := st.known + {(gv, obj.newType), (gv, obj.newListType)});
    if obj.storageVersion then
      var internal := GroupVersion(obj.gvr.group, APIVersionInternal);
      (s1.(known := s1.known + {(internal, obj.newType), (internal, obj.newListType)}), None)
    else if obj.multiVersion.None? then (s1, Some(NotMultiVersion))
    else
      var (s2, e2) := AddConversion(s1, obj.self, obj.multiVersion.value);
      if e2.Some? then (s2, e2) else AddConversion(s2, obj.multiVersion.value, obj.self)
  }

  /** The second half: the defaulting function, the status type, the Scale types, the arbitrary subresource types. */
  function RegisterExtras(st: SchemeState, obj: ResourceObject): SchemeState {
    var gv := obj.gvr.ToGroupVersion();
    var s4 := if obj.defaulter then st.(defaulters := st.defaulters + {obj.self}) else st;
    var s5 := if obj.withStatus && obj.statusObject.Some? then s4.(known := s4.known + {(gv, obj.statusObject.value)}) else s4;
    var s6 := if obj.withScale && !RecognizesScale(s5)
              then s5.(known := s5.known + {(AutoscalingV1, ScaleType)}, scaleInstalls := s5.scaleInstalls + 1)
              else s5;
    if obj.arbitrary.Some? then s6.(known := s6.known + SubResourceTypes(gv, obj.self, obj.arbitrary.value)) else s6
  }

  /** The registration of one object, as the body of the AddToScheme loop performs it. */
  function RegisterObject(st: SchemeState, obj: ResourceObject): (SchemeState, Option<Error>) {
    var versioned := RegisterVersions(st, obj);
    if versioned.1.Some? then versioned else (RegisterExtras(versioned.0, obj), None)
  }

  /** The whole AddToScheme(objs...) function: the objects in order, stopping at the first error. */
  function RegisterObjects(st: SchemeState, objs: seq<ResourceObject>): (SchemeState, Option<Error>) {
    if |objs| == 0 then (st, None)
    else
      var prefix := RegisterObjects(st, objs[..|objs| - 1]);
      if prefix.1.Some? then prefix else RegisterObject(prefix.0, objs[|objs| - 1])
  }

  /** GroupVersion.String() */
  function GroupVersionString(gv: GroupVersion): string {
    if |gv.group| > 0 then gv.group + "/" + gv.version else gv.version
  }

  /** A version that cannot be given a priority. */
  predicate InternalVersion(version: string) {
    |version| == 0 || version == APIVersionInternal
  }

  /** The first internal version among the group's versions, as SetVersionPriority's loop reports it. */
  function InternalError(group: string, versions: seq<string>): (r: Option<Error>)
    ensures r.Some? ==>
      exists k :: 0 <= k < |versions| && InternalVersion(versions[k]) && r.value == InternalVersionError(group, versions[k])
  {
    if |versions| == 0 then None
    else if InternalVersion(versions[0]) then
      Some(InternalVersionError(group, versions[0]))
    else
      var r := InternalError(group, versions[1..]);
      assert r.Some? ==>
        exists k :: 1 <= k < |versions| && InternalVersion(versions[k]) && r.value == InternalVersionError(group, versions[k]) by {
        if r.Some? {
          var k :| 0 <= k < |versions[1..]| && InternalVersion(versions[1..][k]) && r.value == InternalVersionError(group, versions[1..][k]);
          assert versions[1..][k] == versions[k + 1];
        }
      }
      r
  }

  /** The error for a version that cannot be prioritised. */
  function InternalVersionError(group: string, version: string): (e: Error)
    ensures e.Plain? && HasPrefix(e.msg, "internal versions cannot be prioritized: ")
  {
    Plain("internal versions cannot be prioritized: " + GroupVersionString(GroupVersion(group, version)))
  }

  /** The error for a call whose versions name no group: the joined group list is empty. */
  const NoGroupError := Plain("must register versions for exactly one group: ")

  /**
   * The error of SetVersionPriority for versions of one group: the first
   * internal one; otherwise, with no versions at all, the set of groups is
   * empty rather than a single group.
   */
  function PriorityError(group: string, versions: seq<string>): Option<Error> {
    match InternalError(group, versions)
    case Some(e) => Some(e)
    case None => if |versions| == 0 then Some(NoGroupError) else None
  }

  /**
   * Scheme.SetVersionPriority for versions of one group: rejects an internal
   * version and an empty list, and otherwise records the versions, in order,
   * as the group's priority.
   */
  function SetPriority(st: SchemeState, group: string, versions: seq<string>): (SchemeState, Option<Error>) {
    match PriorityError(group, versions)
    case Some(e) => (st, Some(e))
    case None => (st.(priorities := st.priorities[group := versions]), None)
  }

  /** The loop finds an internal version exactly when one is there. */
  lemma {:induction false} InternalErrorFinds(group: string, versions: seq<string>)
    ensures InternalError(group, versions).None? <==> forall i :: 0 <= i < |versions| ==> !InternalVersion(versions[i])
    decreases |versions|
  {
    if |versions| > 0 && !InternalVersion(versions[0]) {
      InternalErrorFinds(group, versions[1..]);
      assert forall i :: 0 < i < |versions| ==> versions[i] == versions[1..][i - 1];
    }
  }

  /**
   * SetVersionPriority succeeds exactly when there is at least one version
   * and none is internal, and then it sets the group's priority list; an
   * empty list fails with the one-group error; a failure changes nothing.
   */
  lemma SetPriorityAccepts(st: SchemeState, group: string, versions: seq<string>)
    ensures SetPriority(st, group, versions).1.None? <==>
      |versions| > 0 && forall i :: 0 <= i < |versions| ==> !InternalVersion(versions[i])
    ensures |versions| == 0 ==> SetPriority(st, group, versions).1 == Some(NoGroupError)
    ensures SetPriority(st, group, versions).1.None? ==>
      SetPriority(st, group, versions).0 == st.(priorities := st.priorities[group := versions])
    ensures SetPriority(st, group, versions).1.Some? ==> SetPriority(st, group, versions).0 == st
  {
    InternalErrorFinds(group, versions);
  }

  /** The runtime.Scheme itself, whose tables the registration updates in place. */
  class Scheme {
    var known: set<(GroupVersion, GoType)>
    var conversions: seq<(GoType, GoType)>
    var defaulters: set<GoType>
    var priorities: map<string, seq<string>>
    var installed: seq<GroupVersion>
    var scaleInstalls: nat

    /** runtime.NewScheme(): empty tables. */
    constructor ()
      ensures State() == SchemeState({}, [], {}, map[], [], 0)
    {
      known := {};
      conversions := [];
      defaulters := {};
      priorities := map[];
      installed := [];
      scaleInstalls := 0;
    }

    function State(): SchemeState
      reads this
    {
      SchemeState(known, conversions, defaulters, priorities, installed, scaleInstalls)
    }

    /** Scheme.AddConversionFunc */
    method AddConversionFunc(a: GoType, b: GoType) returns (err: Option<Error>)
      modifies this
      ensures (State(), err) == AddConversion(old(State()), a, b)
    {
      if !a.pointer {
        return Some(NotPointer("a", a));
      }
      if !b.pointer {
        return Some(NotPointer("b", b));
      }
      conversions := conversions + [(a, b)];
      err := None;
    }

    /** The first half of the loop body for one object. */
    method AddVersions(obj: ResourceObject) returns (err: Option<Error>)
      modifies this
      ensures (State(), err) == RegisterVersions(old(State()), obj)
    {
      var gv := obj.gvr.ToGroupVersion();
      known := known + {(gv, obj.newType), (gv, obj.newListType)};
      if obj.storageVersion {
        var internal := GroupVersion(obj.gvr.group, APIVersionInternal);
        known := known + {(internal, obj.newType), (internal, obj.newListType)};
        return None;
      }
      if obj.multiVersion.None? {
        return Some(NotMultiVersion);
      }
      var storageVersionObj := obj.multiVersion.value;
      err := AddConversionFunc(obj.self, storageVersionObj);
      if err.Some? {
        return;
      }
      err := AddConversionFunc(storageVersionObj, obj.self);
    }

    /** The second half of the loop body for one object. */
    method AddExtras(obj: ResourceObject)
      modifies this
      ensures State() == RegisterExtras(old(State()), obj)
    {
      var gv := obj.gvr.ToGroupVersion();
      if obj.defaulter {
        defaulters := defaulters + {obj.self};
      }
      if obj.withStatus && obj.statusObject.Some? {
        known := known + {(gv, obj.statusObject.value)};
      }
      if obj.withScale && (AutoscalingV1, ScaleType) !in known {
        known := known + {(AutoscalingV1, ScaleType)};
        scaleInstalls := scaleInstalls + 1;
      }
      if obj.arbitrary.Some? {
        AddSubResourceTypes(gv, obj.self, obj.arbitrary.value);
      }
    }

    /** The loop over GetArbitrarySubResources(). */
    method AddSubResourceTypes(gv: GroupVersion, self: GoType, subs: seq<SubResourceDecl>)
      modifies this
      ensures State() == old(State()).(known := old(known) + SubResourceTypes(gv, self, subs))
    {
      var i := 0;
      while i < |subs|
        invariant 0 <= i <= |subs|
        invariant State() == old(State()).(known := old(known) + SubResourceTypes(gv, self, subs[..i]))
      {
        SubResourceTypesExtend(gv, self, subs, i);
        if subs[i].newType != self {
          known := known + {(gv, subs[i].newType)};
        }
        i := i + 1;
      }
      assert subs[..|subs|] == subs;
    }

    /** The body of the AddToScheme loop for one object. */
    method AddObject(obj: ResourceObject) returns (err: Option<Error>)
      modifies this
      ensures (State(), err) == RegisterObject(old(State()), obj)
    {
      err := AddVersions(obj);
      if err.Some? {
        return;
      }
      AddExtras(obj);
    }

    /** Scheme.SetVersionPriority(gvs...), every gvs[i] being (group, versions[i]). */
    method SetVersionPriority(group: string, versions: seq<string>) returns (err: Option<Error>)
      modifies this
      ensures (State(), err) == SetPriority(old(State()), group, versions)
    {
      var i := 0;
      while i < |versions|
        invariant 0 <= i <= |versions|
        invariant InternalError(group, versions) == InternalError(group, versions[i..])
      {
        assert versions[i..][1..] == versions[i + 1..];
        if InternalVersion(versions[i]) {
          return Some(InternalVersionError(group, versions[i]));
        }
        i := i + 1;
      }
      // Every version is in `group`, so the set of groups is {group} unless there are none.
      if |versions| == 0 {
        return Some(NoGroupError);
      }
      priorities := priorities[group := versions];
      err := None;
    }

    /** metav1.AddToGroupVersion: the meta types the group version serves. */
    method AddToGroupVersion(gv: GroupVersion)
      modifies this
      ensures State() == old(State()).(installed := old(installed) + [gv])
    {
      installed := installed + [gv];
    }

    /** AddToScheme(objs...)(s) */
    method AddToScheme(objs: seq<ResourceObject>) returns (err: Option<Error>)
      modifies this
      ensures (State(), err) == RegisterObjects(old(State()), objs)
    {
      var i := 0;
      while i < |objs|
        invariant 0 <= i <= |objs|
        invariant (State(), None) == RegisterObjects(old(State()), objs[..i])
      {
        assert objs[..i + 1][..i] == objs[..i];
        err := AddObject(objs[i]);
        if err.Some? {
          FailureIsFinal(old(State()), objs, i + 1);
          return;
        }
        i := i + 1;
      }
      assert objs[..|objs|] == objs;
      err := None;
    }
  }

  /** Once a prefix of the objects has failed, the rest are not looked at. */
  lemma {:induction false} FailureIsFinal(st: SchemeState, objs: seq<ResourceObject>, k: nat)
    requires k <= |objs| && RegisterObjects(st, objs[..k]).1.Some?
    ensures RegisterObjects(st, objs) == RegisterObjects(st, objs[..k])
    decreases |objs|
  {
    if k < |objs| {
      var init := objs[..|objs| - 1];
      assert init[..k] == objs[..k];
      FailureIsFinal(st, init, k);
    } else {
      assert objs[..k] == objs;
    }
  }

  /** The tables of `a` are contained in those of `b`, and the version priorities and installs agree. */
  predicate Grows(a: SchemeState, b: SchemeState) {
    a.known <= b.known && a.defaulters <= b.defaulters && a.conversions <= b.conversions &&
    a.scaleInstalls <= b.scaleInstalls && b.priorities == a.priorities && b.installed == a.installed
  }

  lemma VersionsGrow(st: SchemeState, obj: ResourceObject)
    ensures Grows(st, RegisterVersions(st, obj).0)
  {
  }

  lemma ExtrasGrow(st: SchemeState, obj: ResourceObject)
    ensures Grows(st, RegisterExtras(st, obj))
  {
  }

  lemma ObjectGrows(st: SchemeState, obj: ResourceObject)
    ensures Grows(st, RegisterObject(st, obj).0)
  {
    VersionsGrow(st, obj);
    ExtrasGrow(RegisterVersions(st, obj).0, obj);
  }

  /** Registration only adds: known types, conversions, defaulters, and the count of Scale installs never shrink. */
  lemma {:induction false} RegistrationGrows(st: SchemeState, objs: seq<ResourceObject>)
    ensures var r := RegisterObjects(st, objs).0;
      st.known <= r.known && st.defaulters <= r.defaulters && st.conversions <= r.conversions &&
      st.scaleInstalls <= r.scaleInstalls && r.priorities == st.priorities && r.installed == st.installed
    decreases |objs|
  {
    if |objs| > 0 {
      RegistrationGrows(st, objs[..|objs| - 1]);
      ObjectGrows(RegisterObjects(st, objs[..|objs| - 1]).0, objs[|objs| - 1]);
    }
  }

  /**
   * When AddToScheme succeeds, every object's New and NewList types are
   * known under its own group version, a storage version's also under
   * (group, "__internal"), and every Defaulter has a defaulting function.
   */
  lemma {:induction false} EveryObjectRegistered(st: SchemeState, objs: seq<ResourceObject>)
    requires RegisterObjects(st, objs).1.None?
    ensures var r := RegisterObjects(st, objs).0;
      forall i :: 0 <= i < |objs| ==>
        var o := objs[i];
        (o.gvr.ToGroupVersion(), o.newType) in r.known && (o.gvr.ToGroupVersion(), o.newListType) in r.known &&
        (o.storageVersion ==> (GroupVersion(o.gvr.group, APIVersionInternal), o.newType) in r.known &&
                              (GroupVersion(o.gvr.group, APIVersionInternal), o.newListType) in r.known) &&
        (o.defaulter ==> o.self in r.defaulters)
    decreases |objs|
  {
    if |objs| > 0 {
      var init := objs[..|objs| - 1];
      EveryObjectRegistered(st, init);
      var mid := RegisterObjects(st, init).0;
      RegistrationGrows(mid, [objs[|objs| - 1]]);
      assert [objs[|objs| - 1]][..0] == [];
      forall i | 0 <= i < |objs| - 1 ensures objs[i] == init[i] { }
    }
  }

  /**
   * AddToScheme stops at the first object whose registration fails and
   * returns that error; what the earlier objects registered stays, and so
   * do the known types the failing object added before failing.
   */
  lemma {:induction false} StopsAtFirstFailure(st: SchemeState, objs: seq<ResourceObject>)
    requires RegisterObjects(st, objs).1.Some?
    ensures exists k :: 0 <= k < |objs| && RegisterObjects(st, objs[..k]).1.None? &&
                        RegisterObjects(st, objs) == RegisterObject(RegisterObjects(st, objs[..k]).0, objs[k])
    decreases |objs|
  {
    var n := |objs| - 1;
    var init := objs[..n];
    if RegisterObjects(st, init).1.Some? {
      StopsAtFirstFailure(st, init);
      var k :| 0 <= k < |init| && RegisterObjects(st, init[..k]).1.None? &&
        RegisterObjects(st, init) == RegisterObject(RegisterObjects(st, init[..k]).0, init[k]);
      assert init[..k] == objs[..k] && init[k] == objs[k];
    } else {
      assert objs[..n] == init;
    }
  }

  /** A non-storage version without a storage-version converter fails, after its own types were added. */
  lemma NotMultiVersionFails(st: SchemeState, obj: ResourceObject)
    requires !obj.storageVersion && obj.multiVersion.None?
    ensures RegisterObject(st, obj) ==
      (st.(known := st.known + {(obj.gvr.ToGroupVersion(), obj.newType), (obj.gvr.ToGroupVersion(), obj.newListType)}),
       Some(NotMultiVersion))
  {
  }

  /**
   * A multi-version object registers the conversion to its storage version
   * and then the one back; when a type is not a pointer the first
   * registration already fails, and its error is returned.
   */
  lemma ConversionsBothWays(st: SchemeState, obj: ResourceObject)
    requires !obj.storageVersion && obj.multiVersion.Some?
    ensures var r := RegisterObject(st, obj); var t := obj.multiVersion.value;
      if obj.self.pointer && t.pointer then
        r.1.None? && r.0.conversions == st.conversions + [(obj.self, t), (t, obj.self)]
      else
        r.1 == Some(if !obj.self.pointer then NotPointer("a", obj.self) else NotPointer("b", t)) &&
        r.0.conversions == st.conversions
  {
  }

  /** A defaulting function is registered for the object's type if and only if it is a Defaulter (or already had one). */
  lemma DefaulterIff(st: SchemeState, obj: ResourceObject)
    requires RegisterObject(st, obj).1.None?
    ensures obj.self in RegisterObject(st, obj).0.defaulters <==> obj.defaulter || obj.self in st.defaulters
  {
  }

  /**
   * The status type is registered under the object's group version only
   * when GetStatus() is a runtime.Object; each arbitrary subresource's type
   * is registered unless it is the parent's own type.
   */
  lemma SubResourceTypesRegistered(st: SchemeState, obj: ResourceObject)
    requires RegisterObject(st, obj).1.None?
    ensures var r := RegisterObject(st, obj).0; var gv := obj.gvr.ToGroupVersion();
      (obj.withStatus && obj.statusObject.Some? ==> (gv, obj.statusObject.value) in r.known) &&
      (obj.arbitrary.Some? ==> forall i :: 0 <= i < |obj.arbitrary.value| && obj.arbitrary.value[i].newType != obj.self ==>
         (gv, obj.arbitrary.value[i].newType) in r.known) &&
      (obj.withScale ==> RecognizesScale(r))
  {
  }

  /** The Scale types are installed at most once over any sequence of objects, and never once recognised. */
  lemma {:induction false} ScaleInstalledOnce(st: SchemeState, objs: seq<ResourceObject>)
    ensures var r := RegisterObjects(st, objs).0;
      r.scaleInstalls <= st.scaleInstalls + (if RecognizesScale(st) then 0 else 1) &&
      (r.scaleInstalls != st.scaleInstalls ==> RecognizesScale(r))
    decreases |objs|
  {
    if |objs| > 0 {
      var init := objs[..|objs| - 1];
      ScaleInstalledOnce(st, init);
      var prefix := RegisterObjects(st, init);
      RegistrationGrows(st, init);
      if prefix.1.None? {
        var mid := prefix.0;
        RegistrationGrows(mid, [objs[|objs| - 1]]);
        assert [objs[|objs| - 1]][..0] == [];
      }
    }
  }
}
