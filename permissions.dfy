/**
 * The permission catalog and the operations the role-sync handler performs on it:
 * looking a permission up by its display name, and adding or removing a list of
 * permissions one at a time on a user's permission set.
 */
module Permissions {
  import opened Errors

  /** One row of the permission table. Rows are told apart by `id`. */
  datatype Permission = Permission(id: nat, codename: string, name: string)

  /** The four permission names the handler looks up, in the order it looks them up. */
  const ViewPost: string := "Can view post"
  const AddPost: string := "Can add post"
  const ChangePost: string := "Can change post"
  const DeletePost: string := "Can delete post"
  const PostPermissionNames: seq<string> := [ViewPost, AddPost, ChangePost, DeletePost]

  /** The set of elements listed in `xs`. */
  function Elems<T>(xs: seq<T>): set<T> {
    set x | x in xs
  }

  /** Number of rows of `catalog` whose name is `name`. */
  function Count(catalog: seq<Permission>, name: string): (n: nat)
    ensures n <= |catalog|
    ensures n == 0 <==> forall p :: p in catalog ==> p.name != name
  {
    if catalog == [] then 0
    else (if catalog[0].name == name then 1 else 0) + Count(catalog[1..], name)
  }

  /** The first row of `catalog` named `name`. */
  function First(catalog: seq<Permission>, name: string): (p: Permission)
    requires Count(catalog, name) > 0
    ensures p in catalog && p.name == name
  {
    if catalog[0].name == name then catalog[0] else First(catalog[1..], name)
  }

  /**
   * The ORM's single-row lookup by name: the one row with that name, or
   * DoesNotExist when there is none, or MultipleObjectsReturned when there are several.
   */
  function Get(catalog: seq<Permission>, name: string): (r: Result<Permission>)
    ensures r.Success? ==> r.value in catalog && r.value.name == name
    ensures r.Success? || r == Failure(DoesNotExist(name)) || r == Failure(MultipleObjectsReturned(name))
  {
    var n := Count(catalog, name);
    if n == 0 then Failure(DoesNotExist(name))
    else if n == 1 then Success(First(catalog, name))
    else Failure(MultipleObjectsReturned(name))
  }

  /** When each outcome of the lookup happens: no row, exactly one row, or two distinct rows with the name. */
  lemma GetOutcomes(catalog: seq<Permission>, name: string)
    ensures Get(catalog, name) == Failure(DoesNotExist(name)) <==> forall p :: p in catalog ==> p.name != name
    ensures Get(catalog, name) == Failure(MultipleObjectsReturned(name)) <==> NamedTwice(catalog, name)
    ensures Get(catalog, name).Success? <==> (exists p :: p in catalog && p.name == name) && !NamedTwice(catalog, name)
  {
    CountAtLeastTwo(catalog, name);
  }

  /** Two distinct rows of `catalog` carry the name `name`. */
  predicate NamedTwice(catalog: seq<Permission>, name: string) {
    exists i, j :: 0 <= i < j < |catalog| && catalog[i].name == name && catalog[j].name == name
  }

  lemma {:induction false} CountAtLeastTwo(catalog: seq<Permission>, name: string)
    ensures Count(catalog, name) >= 2 <==> NamedTwice(catalog, name)
  {
    if Count(catalog, name) >= 2 {
      CountTwoNamedTwice(catalog, name);
    }
    if NamedTwice(catalog, name) {
      var i, j :| 0 <= i < j < |catalog| && catalog[i].name == name && catalog[j].name == name;
      NamedTwiceCountTwo(catalog, name, i, j);
    }
  }

  lemma {:induction false} CountTwoNamedTwice(catalog: seq<Permission>, name: string)
    requires Count(catalog, name) >= 2
    ensures NamedTwice(catalog, name)
  {
    var tail := catalog[1..];
    if catalog[0].name == name {
      var p := First(tail, name);
      var j :| 0 <= j < |tail| && tail[j] == p;
      assert catalog[0].name == name && catalog[j + 1].name == name;
    } else {
      CountTwoNamedTwice(tail, name);
      var i, j :| 0 <= i < j < |tail| && tail[i].name == name && tail[j].name == name;
      assert catalog[i + 1].name == name && catalog[j + 1].name == name;
    }
  }

  lemma {:induction false} NamedTwiceCountTwo(catalog: seq<Permission>, name: string, i: nat, j: nat)
    requires i < j < |catalog| && catalog[i].name == name && catalog[j].name == name
    ensures Count(catalog, name) >= 2
  {
    var tail := catalog[1..];
    if i == 0 {
      assert tail[j - 1] in tail;
    } else {
      NamedTwiceCountTwo(tail, name, i - 1, j - 1);
    }
  }

  /**
   * The four lookups at the head of the handler, in the order view, add, change, delete:
   * the four rows found, or the error of the first lookup that fails. Every row found
   * is a catalog row carrying the looked-up name.
   */
  function PostPermissions(catalog: seq<Permission>): (r: Result<seq<Permission>>)
    ensures r.Success? <==> forall name :: name in PostPermissionNames ==> Get(catalog, name).Success?
    ensures r.Success? ==> |r.value| == 4 &&
                           (forall k :: 0 <= k < 4 ==> r.value[k] in catalog && r.value[k].name == PostPermissionNames[k])
    // the error raised is that of the first lookup to fail
    ensures Get(catalog, ViewPost).Failure? ==> r == Failure(Get(catalog, ViewPost).error)
    ensures Get(catalog, ViewPost).Success? && Get(catalog, AddPost).Failure? ==>
              r == Failure(Get(catalog, AddPost).error)
    ensures Get(catalog, ViewPost).Success? && Get(catalog, AddPost).Success? &&
            Get(catalog, ChangePost).Failure? ==>
              r == Failure(Get(catalog, ChangePost).error)
    ensures Get(catalog, ViewPost).Success? && Get(catalog, AddPost).Success? &&
            Get(catalog, ChangePost).Success? && Get(catalog, DeletePost).Failure? ==>
              r == Failure(Get(catalog, DeletePost).error)
    ensures r.Failure? ==> exists k :: 0 <= k < 4 && Get(catalog, PostPermissionNames[k]) == Failure(r.error) &&
                                      (forall m :: 0 <= m < k ==> Get(catalog, PostPermissionNames[m]).Success?)
  {
    var view := Get(catalog, ViewPost);
    var add := Get(catalog, AddPost);
    var change := Get(catalog, ChangePost);
    var delete := Get(catalog, DeletePost);
    assert Get(catalog, PostPermissionNames[0]) == view && Get(catalog, PostPermissionNames[1]) == add;
    assert Get(catalog, PostPermissionNames[2]) == change && Get(catalog, PostPermissionNames[3]) == delete;
    if view.Failure? then Failure(view.error)
    else if add.Failure? then Failure(add.error)
    else if change.Failure? then Failure(change.error)
    else if delete.Failure? then Failure(delete.error)
    else Success([view.value, add.value, change.value, delete.value])
  }

  /** The set held after adding the elements of `ps` to `s` one at a time, in order. */
  function AddAll<T>(s: set<T>, ps: seq<T>): set<T>
    decreases |ps|
  {
    if ps == [] then s else AddAll(s, ps[..|ps| - 1]) + {ps[|ps| - 1]}
  }

  /** The set held after removing the elements of `ps` from `s` one at a time, in order. */
  function RemoveAll<T>(s: set<T>, ps: seq<T>): set<T>
    decreases |ps|
  {
    if ps == [] then s else RemoveAll(s, ps[..|ps| - 1]) - {ps[|ps| - 1]}
  }

  /** Adding the listed elements one by one adds exactly those elements. */
  lemma {:induction false} AddAllIsUnion<T>(s: set<T>, ps: seq<T>)
    ensures AddAll(s, ps) == s + Elems(ps)
    decreases |ps|
  {
    if ps != [] {
      var init, last := ps[..|ps| - 1], ps[|ps| - 1];
      AddAllIsUnion(s, init);
      assert ps == init + [last];
      assert Elems(ps) == Elems(init) + {last};
    }
  }

  /** Removing the listed elements one by one removes exactly those elements. */
  lemma {:induction false} RemoveAllIsDifference<T>(s: set<T>, ps: seq<T>)
    ensures RemoveAll(s, ps) == s - Elems(ps)
    decreases |ps|
  {
    if ps != [] {
      var init, last := ps[..|ps| - 1], ps[|ps| - 1];
      RemoveAllIsDifference(s, init);
      assert ps == init + [last];
      assert Elems(ps) == Elems(init) + {last};
    }
  }

  /** Granting the same list twice grants nothing more; an element already held is not added again. */
  lemma AddAllIdempotent<T>(s: set<T>, ps: seq<T>)
    ensures AddAll(AddAll(s, ps), ps) == AddAll(s, ps)
    ensures Elems(ps) <= s ==> AddAll(s, ps) == s
  {
    AddAllIsUnion(s, ps);
    AddAllIsUnion(AddAll(s, ps), ps);
  }

  /** Revoking the same list twice revokes nothing more; an absent element is not removed. */
  lemma RemoveAllIdempotent<T>(s: set<T>, ps: seq<T>)
    ensures RemoveAll(RemoveAll(s, ps), ps) == RemoveAll(s, ps)
    ensures Elems(ps) !! s ==> RemoveAll(s, ps) == s
  {
    RemoveAllIsDifference(s, ps);
    RemoveAllIsDifference(RemoveAll(s, ps), ps);
  }
}
