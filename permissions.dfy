/** `IsOwnerOrAdmin`: object access for the owner of a user record or for
    staff. */
module Permissions {
  import opened UsersModels

  /** `request.user`: the anonymous user or a signed-in account. */
  datatype Principal = Anonymous | SignedIn(account: Account)

  /** `obj == request.user`: model instances compare by primary key, and
      the anonymous user equals no stored account. */
  predicate IsOwner(requester: Principal, obj: Account)
  {
    requester.SignedIn? && requester.account.id == obj.id
  }

  /** `request.user.is_staff`: always False for the anonymous user. */
  predicate IsStaffUser(requester: Principal)
  {
    requester.SignedIn? && requester.account.isStaff
  }

  /** `has_object_permission(request, view, obj)`; `view` is not looked at. */
  predicate HasObjectPermission<View>(requester: Principal, view: View, obj: Account)
  {
    IsOwner(requester, obj) || IsStaffUser(requester)
  }

  /** The owner is always allowed, whatever their staff status. */
  lemma OwnerAllowed<View>(account: Account, view: View, obj: Account)
    requires account.id == obj.id
    ensures HasObjectPermission(SignedIn(account), view, obj)
  {
  }

  /** Staff are allowed on every object. */
  lemma StaffAllowed<View>(account: Account, view: View, obj: Account)
    requires account.isStaff
    ensures HasObjectPermission(SignedIn(account), view, obj)
  {
  }

  /** Anyone else is refused: a signed-in non-staff user on another
      account's record, and the anonymous user on any record. */
  lemma OthersDenied<View>(requester: Principal, view: View, obj: Account)
    requires !IsStaffUser(requester) && !IsOwner(requester, obj)
    ensures !HasObjectPermission(requester, view, obj)
    ensures !HasObjectPermission(Anonymous, view, obj)
  {
  }

  /** The answer depends on the requester and the object only. */
  lemma ViewIgnored<View>(requester: Principal, v1: View, v2: View, obj: Account)
    ensures HasObjectPermission(requester, v1, obj) == HasObjectPermission(requester, v2, obj)
  {
  }
}
