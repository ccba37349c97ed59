/**
 * Who may see a button's hologram: nobody in particular (any viewer), every
 * candidate viewer, or the candidates that hold the button's permission.
 * The permission backend is a parameter, an arbitrary function of viewer and
 * permission name.
 */
module Audiences {
  import opened Wrappers

  /** Java's `null` collection of allowed viewers is Unrestricted. */
  datatype Audience<P> = Unrestricted | Explicit(viewers: seq<P>)

  /** The viewers of vs that hold permission, in their original order. */
  function Permitted<P>(vs: seq<P>, permission: string, hasPermission: (P, string) -> bool): (r: seq<P>)
    ensures |r| <= |vs|
    ensures forall i :: 0 <= i < |r| ==> hasPermission(r[i], permission)
    decreases |vs|
  {
    if vs == [] then []
    else
      var last := vs[|vs| - 1];
      Permitted(vs[..|vs| - 1], permission, hasPermission) + (if hasPermission(last, permission) then [last] else [])
  }

  /** r can be obtained from s by deleting elements, keeping the rest in order. */
  ghost predicate IsSubsequence<P>(r: seq<P>, s: seq<P>)
    decreases |s|
  {
    if r == [] then true
    else if s == [] then false
    else
      (r[|r| - 1] == s[|s| - 1] && IsSubsequence(r[..|r| - 1], s[..|s| - 1]))
      || IsSubsequence(r, s[..|s| - 1])
  }

  /** The allowed viewers of the `open` action. */
  function Resolve<P>(viewers: Option<seq<P>>, permission: Option<string>, hasPermission: (P, string) -> bool): (a: Audience<P>)
    ensures a.Unrestricted? <==> viewers.None? || viewers.value == []
    ensures a.Explicit? && permission.None? ==> a.viewers == viewers.value
    ensures a.Explicit? && permission.Some? ==> a.viewers == Permitted(viewers.value, permission.value, hasPermission)
  {
    if viewers.None? || |viewers.value| == 0 then Unrestricted
    else if permission.None? then Explicit(viewers.value)
    else Explicit(Permitted(viewers.value, permission.value, hasPermission))
  }

  /** The player whose placeholders fill in the label: the first viewer, if any. */
  function Opener<P>(viewers: Option<seq<P>>): (o: Option<P>)
    ensures o.Some? <==> viewers.Some? && viewers.value != []
    ensures o.Some? ==> o.value == viewers.value[0]
  {
    if viewers.Some? && |viewers.value| != 0 then Some(viewers.value[0]) else None
  }

  /** Every viewer that holds the permission is kept as often as it occurs; every other is dropped. */
  lemma {:induction false} PermittedCounts<P>(vs: seq<P>, permission: string, hasPermission: (P, string) -> bool, v: P)
    ensures multiset(Permitted(vs, permission, hasPermission))[v]
         == if hasPermission(v, permission) then multiset(vs)[v] else 0
    decreases |vs|
  {
    if vs != [] {
      var init, last := vs[..|vs| - 1], vs[|vs| - 1];
      PermittedCounts(init, permission, hasPermission, v);
      assert vs == init + [last];
    }
  }

  /** The permitted viewers are exactly those of vs that hold the permission. */
  lemma PermittedMembers<P>(vs: seq<P>, permission: string, hasPermission: (P, string) -> bool, v: P)
    ensures v in Permitted(vs, permission, hasPermission) <==> v in vs && hasPermission(v, permission)
  {
    PermittedCounts(vs, permission, hasPermission, v);
    assert v in multiset(Permitted(vs, permission, hasPermission)) <==> v in Permitted(vs, permission, hasPermission);
    assert v in multiset(vs) <==> v in vs;
  }

  /** Filtering keeps the original relative order. */
  lemma {:induction false} PermittedIsSubsequence<P>(vs: seq<P>, permission: string, hasPermission: (P, string) -> bool)
    ensures IsSubsequence(Permitted(vs, permission, hasPermission), vs)
    decreases |vs|
  {
    if vs != [] {
      var init, last := vs[..|vs| - 1], vs[|vs| - 1];
      var kept := Permitted(init, permission, hasPermission);
      PermittedIsSubsequence(init, permission, hasPermission);
      if hasPermission(last, permission) {
        var r := kept + [last];
        assert r[..|r| - 1] == kept;
      } else {
        assert Permitted(vs, permission, hasPermission) == kept;
      }
    }
  }

  /** When every viewer holds the permission, nobody is filtered out. */
  lemma {:induction false} PermittedAll<P>(vs: seq<P>, permission: string, hasPermission: (P, string) -> bool)
    requires forall i :: 0 <= i < |vs| ==> hasPermission(vs[i], permission)
    ensures Permitted(vs, permission, hasPermission) == vs
    decreases |vs|
  {
    if vs != [] {
      PermittedAll(vs[..|vs| - 1], permission, hasPermission);
      assert vs[..|vs| - 1] + [vs[|vs| - 1]] == vs;
    }
  }

  /** Without any candidate viewers the audience is unrestricted, whatever the permission. */
  lemma NoViewersUnrestricted<P>(viewers: Option<seq<P>>, permission: Option<string>, hasPermission: (P, string) -> bool)
    requires viewers.None? || viewers.value == []
    ensures Resolve(viewers, permission, hasPermission) == Unrestricted
    ensures Opener(viewers) == None
  {
  }

  /** The opener is in the audience unless a permission excludes them. */
  lemma OpenerInAudience<P>(viewers: Option<seq<P>>, permission: Option<string>, hasPermission: (P, string) -> bool)
    requires Opener(viewers).Some?
    requires permission.Some? ==> hasPermission(Opener(viewers).value, permission.value)
    ensures Resolve(viewers, permission, hasPermission).Explicit?
    ensures Opener(viewers).value in Resolve(viewers, permission, hasPermission).viewers
  {
    if permission.Some? {
      PermittedMembers(viewers.value, permission.value, hasPermission, viewers.value[0]);
    }
  }
}
