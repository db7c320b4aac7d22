/**
 * Queries on the object permission table: which grants a user holds, and
 * which stored objects the mapper's permission-filtered selects return.
 */
module Grants {
  import opened Types

  /** True iff the permission table grants `permType` on `identifier` to the user with object ID `userID`. */
  ghost predicate Granted(permissions: set<ObjectPermissionModel>, userID: nat, permType: PermissionType, identifier: string)
  {
    exists g :: g in permissions && g.userID == userID && g.permType == permType && g.objectIdentifier == identifier
  }

  /**
   * The object permission set of `user`: the (type, identifier) pairs the
   * permission table grants to it.
   */
  function PermissionSet(permissions: set<ObjectPermissionModel>, user: UserModel): (r: set<(PermissionType, string)>)
    ensures forall t, id :: (t, id) in r <==> Granted(permissions, user.objectID, t, id)
  {
    set g | g in permissions && g.userID == user.objectID :: (g.permType, g.objectIdentifier)
  }

  /**
   * The identifiers the object mapper's permission-filtered selects return
   * for `user`: the stored objects it holds READ on.
   */
  function Readable<D>(objects: map<string, ObjectModel<D>>, permissions: set<ObjectPermissionModel>,
                       user: UserModel): (r: set<string>)
    ensures r <= objects.Keys
    ensures forall id :: id in r <==> id in objects && Granted(permissions, user.objectID, READ, id)
  {
    set id | id in objects && (READ, id) in PermissionSet(permissions, user)
  }
}
