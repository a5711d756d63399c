// The access rule of the object views (owner, same organization or
// superuser), where a refused request is sent, and the audit stamping of a
// saved form: creator, default owner and organization, last editor, and the
// audit entry with its action and client address.

module Mixins {
  import opened Common
  import opened Ownership

  // ---------------------------------------------------------------------------
  // OwnershipRequiredMixin
  // ---------------------------------------------------------------------------

  /** What the view offers: whether it has `get_object`, and what that returns (None on create). */
  datatype ViewObject = NoGetObject | Object(obj: Option<Owned>)

  /** OwnershipRequiredMixin.test_func. */
  function TestFunc(user: User, view: ViewObject): (allowed: bool)
    ensures user.isSuperuser ==> allowed
    ensures view.NoGetObject? ==> allowed
    ensures view.Object? && view.obj.None? ==> allowed
    ensures !user.isSuperuser && view.Object? && view.obj.Some? ==>
      (allowed <==> view.obj.value.owner == Some(user.id) ||
                    (view.obj.value.organization.Some? && user.organization == view.obj.value.organization))
  {
    if user.isSuperuser then true
    else if view.Object? then
      if view.obj.None? then true
      else
        var o := view.obj.value;
        if o.owner == Some(user.id) then true
        else if o.organization.Some? && user.organization == o.organization then true
        else false
    else true
  }

  /** An object of the user's own organization, as the list views show it, opens in the detail views. */
  lemma {:induction false} ListedObjectsAllowed(rows: seq<Owned>, user: User, o: Owned)
    requires o in QuerysetForUser(rows, user)
    ensures TestFunc(user, Object(Some(o)))
  {
  }

  /** Where a refused request goes: the login page keeping the requested path, or home. */
  datatype Redirect = ToLogin(next: string) | ToHome

  /** OwnershipRequiredMixin.handle_no_permission. */
  function HandleNoPermission(user: User, fullPath: string): (r: Redirect)
    ensures r == ToHome <==> user.isAuthenticated
    ensures r.ToLogin? ==> r.next == fullPath
  {
    if !user.isAuthenticated then ToLogin(fullPath) else ToHome
  }

  // ---------------------------------------------------------------------------
  // AuditableMixin.form_valid
  // ---------------------------------------------------------------------------

  /** One row of the audit log. */
  datatype AuditEntry = AuditEntry(userId: int, action: string, objectId: int, ipAddress: Option<string>)

  /** `not obj.pk`: no key yet, or the key 0, which Python reads as false. */
  predicate Unsaved(pk: Option<int>)
  {
    pk.None? || pk.value == 0
  }

  /** The object a model form saves; the `has...` flags are the `hasattr` checks. */
  class AuditedObject {
    var pk: Option<int>
    const hasCreatedBy: bool
    const hasOwner: bool
    const hasOrganization: bool
    const hasUpdatedBy: bool
    var createdBy: Option<int>
    var owner: Option<int>
    var organization: Option<int>
    var updatedBy: Option<int>

    constructor (pk: Option<int>, hasCreatedBy: bool, hasOwner: bool, hasOrganization: bool, hasUpdatedBy: bool,
                 owner: Option<int>, organization: Option<int>)
      ensures this.pk == pk && this.owner == owner && this.organization == organization
      ensures this.hasCreatedBy == hasCreatedBy && this.hasOwner == hasOwner
      ensures this.hasOrganization == hasOrganization && this.hasUpdatedBy == hasUpdatedBy
      ensures createdBy.None? && updatedBy.None?
    {
      this.pk := pk;
      this.hasCreatedBy := hasCreatedBy;
      this.hasOwner := hasOwner;
      this.hasOrganization := hasOrganization;
      this.hasUpdatedBy := hasUpdatedBy;
      this.owner := owner;
      this.organization := organization;
      createdBy := None;
      updatedBy := None;
    }

    /**
     * AuditableMixin.form_valid for this object: stamps the creator and the
     * default owner and organization on an object without a truthy key, the
     * editor on every save, saves (an object without a key gets the primary
     * key `newPk`) and returns the audit entry. `viewHasObject` is
     * `hasattr(self, 'object')`.
     */
    method FormValid(user: User, viewHasObject: bool, forwardedFor: Option<string>, remoteAddr: Option<string>,
                     newPk: int) returns (entry: AuditEntry)
      modifies this
      ensures createdBy == if Unsaved(old(pk)) && hasCreatedBy then Some(user.id) else old(createdBy)
      ensures owner == if Unsaved(old(pk)) && hasOwner && old(owner).None? then Some(user.id) else old(owner)
      ensures organization ==
        if Unsaved(old(pk)) && hasOrganization && old(organization).None? then user.organization else old(organization)
      ensures updatedBy == if hasUpdatedBy then Some(user.id) else old(updatedBy)
      ensures pk == if old(pk).None? then Some(newPk) else old(pk)
      ensures entry == AuditEntry(user.id, AuditAction(viewHasObject), pk.value,
                                  ClientIp(forwardedFor, remoteAddr))
    {
      if Unsaved(pk) {
        if hasCreatedBy {
          createdBy := Some(user.id);
        }
        if hasOwner && owner.None? {
          owner := Some(user.id);
        }
        if hasOrganization && organization.None? {
          organization := user.organization;
        }
      }
      if hasUpdatedBy {
        updatedBy := Some(user.id);
      }
      if pk.None? {
        pk := Some(newPk);
      }
      var action := AuditAction(viewHasObject);
      var ip := ClientIp(forwardedFor, remoteAddr);
      entry := AuditEntry(user.id, action, pk.value, ip);
    }
  }

  /** The action recorded: "create" exactly when the view has no `object` attribute. */
  function AuditAction(viewHasObject: bool): (action: string)
    ensures action == "create" <==> !viewHasObject
    ensures action == "update" <==> viewHasObject
  {
    if !viewHasObject then "create" else "update"
  }
}
