/**
 * Values shared by the directory object service: users, object models,
 * permission grants and the errors the service reports.
 */
module Types {

  /** An optional value; `None` stands for the Java `null` of a lookup that found nothing. */
  datatype Option<T> = None | Some(value: T)

  /** The failures the service can report. */
  datatype Error =
    | PermissionDenied      // the "Permission denied." security exception
    | DuplicateIdentifier   // the object mapper refuses to insert an identifier it already stores

  /** The result of a check or update that returns nothing on success. */
  datatype Outcome = Pass | Fail(error: Error)

  /** The result of an operation that returns a value on success. */
  datatype Result<T> = Success(value: T) | Failure(error: Error)

  /** The kinds of object permission a user may be granted. */
  datatype PermissionType = READ | UPDATE | DELETE | ADMINISTER

  /** The storage record of a user: its numeric object ID and its identifier (the username). */
  datatype UserModel = UserModel(objectID: nat, identifier: string)

  /** The caller of every operation: its own user record and the administrator flag. */
  datatype AuthenticatedUser = AuthenticatedUser(model: UserModel, isAdministrator: bool)

  /** One row of the object permission table: the user with object ID `userID` and name `username` holds `permType` on `objectIdentifier`. */
  datatype ObjectPermissionModel = ObjectPermissionModel(
    userID: nat,
    username: string,
    permType: PermissionType,
    objectIdentifier: string)

  /**
   * The storage record of a directory object: its unique identifier, the
   * numeric object ID the database assigns on insert (`None` before that),
   * and the entity-specific attributes.
   */
  datatype ObjectModel<D> = ObjectModel(identifier: string, objectID: Option<nat>, attributes: D)
}
