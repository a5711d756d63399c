// Which rows a user may see: a superuser sees everything, a user without an
// organization sees nothing, everybody else sees the rows of their own
// organization (OwnershipManager.get_queryset_for_user).

module Ownership {
  import opened Common

  /** The requesting user; `organization` is None when none is assigned. */
  datatype User = User(id: int, isSuperuser: bool, isAuthenticated: bool, organization: Option<int>)

  /** A row of an owned model: its owner (a user id) and its organization, either may be null. */
  datatype Owned = Owned(id: int, owner: Option<int>, organization: Option<int>)

  /** OwnershipManager.get_queryset_for_user over the model's rows, in their order. */
  function QuerysetForUser(rows: seq<Owned>, user: User): (r: seq<Owned>)
    ensures user.isSuperuser ==> r == rows
    ensures !user.isSuperuser && user.organization.None? ==> r == []
    ensures !user.isSuperuser && user.organization.Some? ==>
      forall o :: o in r <==> o in rows && o.organization == user.organization
    ensures forall o :: o in r ==> o in rows
    ensures |r| <= |rows|
  {
    if user.isSuperuser then rows
    else if user.organization.None? then []
    else
      var sameOrganization := (o: Owned) => o.organization == user.organization;
      FilterMembers(rows, sameOrganization);
      Filter(rows, sameOrganization)
  }

  /** A row without an organization is seen only by superusers. */
  lemma {:induction false} OrphanRowsHidden(rows: seq<Owned>, user: User, i: nat)
    requires i < |rows| && rows[i].organization.None? && !user.isSuperuser
    ensures rows[i] !in QuerysetForUser(rows, user)
  {
  }

  /** Two users of the same organization see the same rows. */
  lemma {:induction false} SameOrganizationSameRows(rows: seq<Owned>, u1: User, u2: User)
    requires !u1.isSuperuser && !u2.isSuperuser && u1.organization == u2.organization
    ensures QuerysetForUser(rows, u1) == QuerysetForUser(rows, u2)
  {
    if u1.organization.Some? {
      var k1 := (o: Owned) => o.organization == u1.organization;
      var k2 := (o: Owned) => o.organization == u2.organization;
      FilterSame(rows, k1, k2);
    }
  }

  /** Filtering with two conditions that agree on every row gives the same rows. */
  lemma {:induction false} FilterSame(rows: seq<Owned>, k1: Owned -> bool, k2: Owned -> bool)
    requires forall i :: 0 <= i < |rows| ==> k1(rows[i]) == k2(rows[i])
    ensures Filter(rows, k1) == Filter(rows, k2)
  {
    if |rows| > 0 {
      FilterSame(rows[1..], k1, k2);
    }
  }
}
