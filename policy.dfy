/**
 * The access-control policy of the directory object service, as pure
 * functions over the contents of the permission table, and the facts about
 * it that the service's operations rely on.
 */
module Policy {
  import opened Types
  import opened Grants

  /** The permissions granted to the creator of every new object, in this order. */
  const ImplicitObjectPermissions: seq<PermissionType> := [READ, UPDATE, DELETE, ADMINISTER]

  /** The grant that gives `user` the permission `permType` on the object `identifier`. */
  function ImplicitGrant(user: UserModel, identifier: string, permType: PermissionType): ObjectPermissionModel
  {
    ObjectPermissionModel(user.objectID, user.identifier, permType, identifier)
  }

  /** All grants that creating `identifier` adds to the permission table for its creator. */
  function ImplicitGrants(user: UserModel, identifier: string): set<ObjectPermissionModel>
  {
    set t | t in ImplicitObjectPermissions :: ImplicitGrant(user, identifier, t)
  }

  /**
   * Whether `user` may perform `permType` on the object `identifier`:
   * administrators always may, anyone else exactly when granted.
   */
  function HasObjectPermission(permissions: set<ObjectPermissionModel>, user: AuthenticatedUser,
                               identifier: string, permType: PermissionType): (r: bool)
    ensures user.isAdministrator ==> r
    ensures !user.isAdministrator ==> (r <==> Granted(permissions, user.model.objectID, permType, identifier))
  {
    user.isAdministrator || (permType, identifier) in PermissionSet(permissions, user.model)
  }

  /**
   * The check run before an object is created; `hasCreatePermission` is the
   * entity-specific answer to whether `user` may create this kind of object.
   */
  function BeforeCreate(user: AuthenticatedUser, hasCreatePermission: bool): (r: Outcome)
    ensures r.Pass? <==> user.isAdministrator || hasCreatePermission
    ensures r.Fail? ==> r.error == PermissionDenied
  {
    if !user.isAdministrator && !hasCreatePermission then Fail(PermissionDenied) else Pass
  }

  /** The check run before `model` is written back: UPDATE on its identifier is needed. */
  function BeforeUpdate<D>(permissions: set<ObjectPermissionModel>, user: AuthenticatedUser, model: ObjectModel<D>): (r: Outcome)
    ensures r.Pass? <==> user.isAdministrator || Granted(permissions, user.model.objectID, UPDATE, model.identifier)
    ensures r.Fail? ==> r.error == PermissionDenied
  {
    if !HasObjectPermission(permissions, user, model.identifier, UPDATE) then Fail(PermissionDenied) else Pass
  }

  /** The check run before `identifier` is deleted: DELETE on it is needed. */
  function BeforeDelete(permissions: set<ObjectPermissionModel>, user: AuthenticatedUser, identifier: string): (r: Outcome)
    ensures r.Pass? <==> user.isAdministrator || Granted(permissions, user.model.objectID, DELETE, identifier)
    ensures r.Fail? ==> r.error == PermissionDenied
  {
    if !HasObjectPermission(permissions, user, identifier, DELETE) then Fail(PermissionDenied) else Pass
  }

  /**
   * The stored objects `user` can see: all of them for an administrator,
   * the readable ones otherwise. Either way, exactly those on which the
   * policy grants READ.
   */
  function Visible<D>(objects: map<string, ObjectModel<D>>, permissions: set<ObjectPermissionModel>,
                      user: AuthenticatedUser): (r: set<string>)
    ensures r <= objects.Keys
    ensures forall id :: id in r <==> id in objects && HasObjectPermission(permissions, user, id, READ)
  {
    if user.isAdministrator then objects.Keys else Readable(objects, permissions, user.model)
  }

  /** The creator is granted every kind of object permission. */
  lemma ImplicitPermissionsCoverAllTypes(t: PermissionType)
    ensures t in ImplicitObjectPermissions
  {
  }

  /**
   * The implicit grants of a creation are exactly the grants to the creator,
   * by object ID and name, on the new identifier, whatever their type.
   */
  lemma ImplicitGrantsExactly(user: UserModel, identifier: string, g: ObjectPermissionModel)
    ensures g in ImplicitGrants(user, identifier) <==>
      g.userID == user.objectID && g.username == user.identifier && g.objectIdentifier == identifier
  {
    if g.userID == user.objectID && g.username == user.identifier && g.objectIdentifier == identifier {
      ImplicitPermissionsCoverAllTypes(g.permType);
      assert g == ImplicitGrant(user, identifier, g.permType);
    }
  }

  /**
   * Adding the implicit grants of a creation gives exactly one new thing:
   * every permission on the new identifier, to its creator.
   */
  lemma GrantedAfterCreate(permissions: set<ObjectPermissionModel>, creator: UserModel, identifier: string,
                           userID: nat, permType: PermissionType, id: string)
    ensures Granted(permissions + ImplicitGrants(creator, identifier), userID, permType, id)
        <==> Granted(permissions, userID, permType, id) || (userID == creator.objectID && id == identifier)
  {
    var added := permissions + ImplicitGrants(creator, identifier);
    if userID == creator.objectID && id == identifier {
      ImplicitPermissionsCoverAllTypes(permType);
      var g := ImplicitGrant(creator, identifier, permType);
      assert g in ImplicitGrants(creator, identifier);
      assert g in added && g.userID == userID && g.permType == permType && g.objectIdentifier == id;
    }
    if Granted(added, userID, permType, id) {
      var g :| g in added && g.userID == userID && g.permType == permType && g.objectIdentifier == id;
      if g !in permissions {
        var t :| t in ImplicitObjectPermissions && g == ImplicitGrant(creator, identifier, t);
        assert userID == creator.objectID && id == identifier;
      }
    }
  }

  /** After a creation, its creator holds every permission on the new object. */
  lemma CreatorHoldsImplicitPermissions(permissions: set<ObjectPermissionModel>, user: AuthenticatedUser,
                                        identifier: string, permType: PermissionType)
    ensures HasObjectPermission(permissions + ImplicitGrants(user.model, identifier), user, identifier, permType)
  {
    GrantedAfterCreate(permissions, user.model, identifier, user.model.objectID, permType, identifier);
  }

  /** After a creation, no other user and no other object gains or loses a permission. */
  lemma CreationGrantsNothingElse(permissions: set<ObjectPermissionModel>, creator: UserModel, identifier: string,
                                  user: AuthenticatedUser, id: string, permType: PermissionType)
    requires user.model.objectID != creator.objectID || id != identifier
    ensures HasObjectPermission(permissions + ImplicitGrants(creator, identifier), user, id, permType)
        == HasObjectPermission(permissions, user, id, permType)
  {
  }

  /** A newly stored object, with its implicit grants, is visible to its creator. */
  lemma CreatedIsVisibleToCreator<D>(objects: map<string, ObjectModel<D>>, permissions: set<ObjectPermissionModel>,
                                     user: AuthenticatedUser, model: ObjectModel<D>)
    ensures model.identifier in Visible(objects[model.identifier := model],
                                        permissions + ImplicitGrants(user.model, model.identifier), user)
  {
    CreatorHoldsImplicitPermissions(permissions, user, model.identifier, READ);
  }
}
