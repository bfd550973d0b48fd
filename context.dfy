/**
 * The request context as an immutable association list (newest binding
 * last), and the parent-storage accessors of pkg/util/context.
 */
module ParentContext {
  import opened Wrappers
  import opened Storage

  /** One context.WithValue derivation: under the package's private key, or under any other key. */
  datatype Binding = ParentStorage(storage: Storage) | Other(key: nat, value: nat)

  datatype Context = Context(bindings: seq<Binding>)

  /** The outcome of a typed lookup: nothing bound, the bound storage, or a failed unchecked type assertion. */
  datatype Lookup = Absent | Found(storage: Storage) | AssertionPanic

  /** WithParentStorage: a child context in which the parent storage key maps to `storage`. */
  function WithParentStorage(ctx: Context, storage: Storage): Context {
    Context(ctx.bindings + [ParentStorage(storage)])
  }

  /** context.WithValue under a key of some other package. */
  function WithValue(ctx: Context, key: nat, value: nat): Context {
    Context(ctx.bindings + [Other(key, value)])
  }

  /** ctx.Value(parentStorageContextKey): the newest binding of the key, if any. */
  function Newest(bindings: seq<Binding>): Option<Storage> {
    if |bindings| == 0 then None
    else match bindings[|bindings| - 1]
      case ParentStorage(s) => Some(s)
      case Other(_, _) => Newest(bindings[..|bindings| - 1])
  }

  function ParentValue(ctx: Context): Option<Storage> {
    Newest(ctx.bindings)
  }

  /** GetParentStorage: absent when nothing (or nil) is bound; otherwise asserts rest.StandardStorage. */
  function GetParentStorage(ctx: Context): Lookup {
    match ParentValue(ctx)
    case None => Absent
    case Some(s) =>
      if s == Nil then Absent
      else if s.IsStandardStorage() then Found(s)
      else AssertionPanic
  }

  /** GetParentStorageGetter: the same lookup, asserting only rest.Getter. */
  function GetParentStorageGetter(ctx: Context): Lookup {
    match ParentValue(ctx)
    case None => Absent
    case Some(s) =>
      if s == Nil then Absent
      else if s.IsGetter() then Found(s)
      else AssertionPanic
  }

  /** The lookup finds exactly the newest parent-storage binding; older ones are shadowed. */
  lemma {:induction false} NewestIsLastBinding(bindings: seq<Binding>, s: Storage)
    ensures Newest(bindings) == Some(s) <==>
      exists i :: 0 <= i < |bindings| && bindings[i] == ParentStorage(s) &&
        forall j :: i < j < |bindings| ==> !bindings[j].ParentStorage?
  {
    if |bindings| > 0 {
      var last := |bindings| - 1;
      var init := bindings[..last];
      NewestIsLastBinding(init, s);
      if bindings[last].ParentStorage? {
        if Newest(bindings) == Some(s) {
          assert bindings[last] == ParentStorage(s);
        } else {
          forall i | 0 <= i < |bindings| && bindings[i] == ParentStorage(s)
            ensures exists j :: i < j < |bindings| && bindings[j].ParentStorage?
          {
            assert i != last;
            assert i < last && bindings[last].ParentStorage?;
          }
        }
      } else {
        if Newest(bindings) == Some(s) {
          var i :| 0 <= i < |init| && init[i] == ParentStorage(s) &&
            forall j :: i < j < |init| ==> !init[j].ParentStorage?;
          assert bindings[i] == ParentStorage(s);
          assert forall j :: i < j < |bindings| ==> !bindings[j].ParentStorage? by {
            forall j | i < j < |bindings| ensures !bindings[j].ParentStorage? {
              if j < last { assert bindings[j] == init[j]; }
            }
          }
        } else {
          forall i | 0 <= i < |bindings| && bindings[i] == ParentStorage(s)
            ensures exists j :: i < j < |bindings| && bindings[j].ParentStorage?
          {
            assert i < last && init[i] == ParentStorage(s);
            var j :| i < j < |init| && init[j].ParentStorage?;
            assert bindings[j] == init[j];
          }
        }
      }
    }
  }

  /** A context that was never derived by WithParentStorage has no parent storage. */
  lemma {:induction false} UnboundIsAbsent(ctx: Context)
    requires forall i :: 0 <= i < |ctx.bindings| ==> !ctx.bindings[i].ParentStorage?
    ensures GetParentStorage(ctx) == Absent && GetParentStorageGetter(ctx) == Absent
  {
    if ParentValue(ctx).Some? {
      NewestIsLastBinding(ctx.bindings, ParentValue(ctx).value);
    }
  }

  /** After WithParentStorage(ctx, s), both accessors return s, or panic when s lacks the asserted interface. */
  lemma BoundIsFound(ctx: Context, s: Storage)
    requires s != Nil
    ensures GetParentStorage(WithParentStorage(ctx, s)) ==
      (if s.IsStandardStorage() then Found(s) else AssertionPanic)
    ensures GetParentStorageGetter(WithParentStorage(ctx, s)) ==
      (if s.IsGetter() then Found(s) else AssertionPanic)
  {
  }

  /** Deriving leaves the original context as a prefix, and a later derivation shadows an earlier one. */
  lemma DerivationShadows(ctx: Context, s1: Storage, s2: Storage, key: nat, value: nat)
    ensures WithParentStorage(ctx, s1).bindings[..|ctx.bindings|] == ctx.bindings
    ensures ParentValue(WithParentStorage(WithParentStorage(ctx, s1), s2)) == Some(s2)
    ensures ParentValue(WithValue(WithParentStorage(ctx, s1), key, value)) == Some(s1)
  {
    var c1 := WithParentStorage(ctx, s1);
    var c2 := WithValue(c1, key, value);
    assert c2.bindings[..|c2.bindings| - 1] == c1.bindings;
    assert Newest(c1.bindings) == Some(s1);
    assert Newest(c2.bindings) == Newest(c1.bindings);
  }
}
