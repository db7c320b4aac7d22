# Directory object service: a verified model

This project models the access-control layer of the JDBC authentication
extension's `DirectoryObjectService`. That layer is the generic service that every
kind of directory object (users, connections and the like) goes through to be
created, retrieved, updated, deleted or listed. Each operation first runs
a permission check. Then it calls the object mapper, and, for creation,
the permission mapper.

The storage behind the service is modelled abstractly, in the `Database` class
(`storage.dfy`):

- the object table is a `map` from identifier to `ObjectModel`;
- the object permission table is a `set` of `ObjectPermissionModel` grants
  (user ID, username, permission type, object identifier);
- a counter gives each inserted object the next numeric object ID;
- a ghost counter records how many selects have been run.

The caller is an `AuthenticatedUser`: its own `UserModel` plus the
`isAdministrator` flag. The entity-specific hooks of the abstract Java class
(`getModelInstance`, `getObjectInstance`, `DirectoryObject.getModel`,
`hasCreatePermission`) are `const` function fields of
`DirectoryObjectService`, fixed when the service is built. The one law
assumed of them is that a wrapped object is backed by the model it was
built from. `getPermissionSet` is modelled as the set of (type, identifier)
pairs that the permission table grants to the user's object ID
(`Grants.PermissionSet`).

Files:

- `types.dfy`: module `Types` (values and errors);
- `grants.dfy`: module `Grants` (queries on the permission table);
- `policy.dfy`: module `Policy` (the pure checks and the lemmas about grants and visibility);
- `storage.dfy`: module `Storage` (the mappers, modelled on the two tables);
- `service.dfy`: module `DirectoryObjects` (the service class).

Modelling decisions:

- The object mapper's `selectReadable` and `selectReadableIdentifiers` are
  declared by the mapper interface and implemented in SQL, neither of which is
  modelled. They are defined as the stored rows, or identifiers, on which the
  caller holds a READ grant (`Grants.Readable`). This is what the doc comment
  of `retrieveObjects` says.
- Identifiers are unique because the object table is a map. Every row is
  stored under its own identifier (`Database.Valid`). The Java `assert` in
  `retrieveObject`, that at most one object matches, therefore becomes a
  proved assertion. The model has no "consistency error", because that
  case cannot arise.
- The doc comment of `createObject` says that creating an object that already
  exists raises an error. The mapper's insert is modelled as refusing an
  identifier that is already stored, with `DuplicateIdentifier`. Both tables
  are then left unchanged. Any other mapper failure is not modelled.
- The code checks DELETE (or UPDATE) before looking at storage. A
  non-administrator without the grant therefore gets `PermissionDenied` even
  for an identifier that is not stored. Only a permitted caller gets the
  documented no-op. The model follows the code here. The doc comments of
  `deleteObject` (442-443) and `updateObject` (466-467) describe the no-op
  without that condition.
- Object IDs are assigned by a counter on insert. Every stored object ID is
  below the counter (`Database.Valid`), and the mapper's update keeps the
  object ID of the row it replaces. A newly created object's ID is therefore
  carried by no other stored row.

## Model

| member | source | states |
|---|---|---|
| `Policy.ImplicitObjectPermissions` | extensions/guacamole-auth-jdbc/modules/guacamole-auth-jdbc-base/src/main/java/org/glyptodon/guacamole/auth/jdbc/base/DirectoryObjectService.java:63-68 | the permissions implicitly granted to a creator, in the order READ, UPDATE, DELETE, ADMINISTER |
| `Grants.Granted` | extensions/guacamole-auth-jdbc/modules/guacamole-auth-jdbc-base/src/main/java/org/glyptodon/guacamole/auth/jdbc/base/DirectoryObjectService.java:168 | the permission set's `hasPermission`: some grant of the permission table gives that type on that identifier to that user ID |
| `Policy.ImplicitGrantsExactly` | extensions/guacamole-auth-jdbc/modules/guacamole-auth-jdbc-base/src/main/java/org/glyptodon/guacamole/auth/jdbc/base/DirectoryObjectService.java:388-401 | the grant bundle of a creation is exactly the grants to the creator, by object ID and username, on the new identifier, of every type |
| `Policy.ImplicitPermissionsCoverAllTypes` | extensions/guacamole-auth-jdbc/modules/guacamole-auth-jdbc-base/src/main/java/org/glyptodon/guacamole/auth/jdbc/base/DirectoryObjectService.java:63-68 | every permission type (READ, UPDATE, DELETE, ADMINISTER) is among the implicit creator permissions |
| `Grants.PermissionSet` | extensions/guacamole-auth-jdbc/modules/guacamole-auth-jdbc-base/src/main/java/org/glyptodon/guacamole/auth/jdbc/base/DirectoryObjectService.java:163-168 | the user's permission set holds (type, identifier) exactly when the permission table has a grant of that type on that identifier for the user's object ID |
| `Policy.HasObjectPermission` | extensions/guacamole-auth-jdbc/modules/guacamole-auth-jdbc-base/src/main/java/org/glyptodon/guacamole/auth/jdbc/base/DirectoryObjectService.java:159-170 | always true for an administrator; for anyone else true exactly when a matching grant exists |
| `Policy.BeforeCreate` | extensions/guacamole-auth-jdbc/modules/guacamole-auth-jdbc-base/src/main/java/org/glyptodon/guacamole/auth/jdbc/base/DirectoryObjectService.java:233-240 | passes exactly for an administrator or a user with create permission; any failure is `PermissionDenied` |
| `Policy.BeforeUpdate` | extensions/guacamole-auth-jdbc/modules/guacamole-auth-jdbc-base/src/main/java/org/glyptodon/guacamole/auth/jdbc/base/DirectoryObjectService.java:258-265 | passes exactly for an administrator or a holder of an UPDATE grant on the model's identifier; any failure is `PermissionDenied` |
| `Policy.BeforeDelete` | extensions/guacamole-auth-jdbc/modules/guacamole-auth-jdbc-base/src/main/java/org/glyptodon/guacamole/auth/jdbc/base/DirectoryObjectService.java:283-290 | passes exactly for an administrator or a holder of a DELETE grant on the identifier; any failure is `PermissionDenied` |
| `Grants.Readable` | extensions/guacamole-auth-jdbc/modules/guacamole-auth-jdbc-base/src/main/java/org/glyptodon/guacamole/auth/jdbc/base/DirectoryObjectService.java:328-330 | the identifiers a permission-filtered select yields are the stored ones the user holds READ on, a subset of all stored identifiers |
| `Policy.Visible` | extensions/guacamole-auth-jdbc/modules/guacamole-auth-jdbc-base/src/main/java/org/glyptodon/guacamole/auth/jdbc/base/DirectoryObjectService.java:353-359 | what a user can see, through the administrator branch or the filtered one, is exactly the stored identifiers on which the policy grants READ |
| `Policy.GrantedAfterCreate` | extensions/guacamole-auth-jdbc/modules/guacamole-auth-jdbc-base/src/main/java/org/glyptodon/guacamole/auth/jdbc/base/DirectoryObjectService.java:434-435 | after the implicit grants are added, a grant exists exactly when it existed before or it is to the creator on the new identifier (of any type) |
| `Policy.CreatorHoldsImplicitPermissions` | extensions/guacamole-auth-jdbc/modules/guacamole-auth-jdbc-base/src/main/java/org/glyptodon/guacamole/auth/jdbc/base/DirectoryObjectService.java:388-401 | after the implicit grants are added, the creator holds every permission type on the new object |
| `Policy.CreationGrantsNothingElse` | extensions/guacamole-auth-jdbc/modules/guacamole-auth-jdbc-base/src/main/java/org/glyptodon/guacamole/auth/jdbc/base/DirectoryObjectService.java:391-396 | the implicit grants change no permission of any other user, nor of the creator on any other object |
| `Policy.CreatedIsVisibleToCreator` | extensions/guacamole-auth-jdbc/modules/guacamole-auth-jdbc-base/src/main/java/org/glyptodon/guacamole/auth/jdbc/base/DirectoryObjectService.java:425-437 | once stored with its implicit grants, the new object is visible to its creator |
| `Storage.RowsOfCount` | extensions/guacamole-auth-jdbc/modules/guacamole-auth-jdbc-base/src/main/java/org/glyptodon/guacamole/auth/jdbc/base/DirectoryObjectService.java:319-321 | a select returns exactly one row per matched identifier, so a lookup of one identifier yields at most one row |
| `Storage.Updated` | extensions/guacamole-auth-jdbc/modules/guacamole-auth-jdbc-base/src/main/java/org/glyptodon/guacamole/auth/jdbc/base/DirectoryObjectService.java:465-467 | the mapper's update keeps the set of identifiers, replaces the row with the model's identifier if stored, keeping that row's object ID, and leaves every other row as it was |
| `Storage.UpdateIdempotent` | extensions/guacamole-auth-jdbc/modules/guacamole-auth-jdbc-base/src/main/java/org/glyptodon/guacamole/auth/jdbc/base/DirectoryObjectService.java:479-488 | writing the same model twice leaves the table as writing it once |
| `Storage.Database.CollectRows` | extensions/guacamole-auth-jdbc/modules/guacamole-auth-jdbc-base/src/main/java/org/glyptodon/guacamole/auth/jdbc/base/DirectoryObjectService.java:351-359 | returns each stored row of the wanted identifiers exactly once, with no other row |
| `Storage.Database.Select` | extensions/guacamole-auth-jdbc/modules/guacamole-auth-jdbc-base/src/main/java/org/glyptodon/guacamole/auth/jdbc/base/DirectoryObjectService.java:355 | the unfiltered select returns the stored rows among the requested identifiers and counts as one query |
| `Storage.Database.SelectReadable` | extensions/guacamole-auth-jdbc/modules/guacamole-auth-jdbc-base/src/main/java/org/glyptodon/guacamole/auth/jdbc/base/DirectoryObjectService.java:359 | the filtered select returns the stored rows among the requested identifiers that the user holds READ on |
| `Storage.Database.SelectIdentifiers` | extensions/guacamole-auth-jdbc/modules/guacamole-auth-jdbc-base/src/main/java/org/glyptodon/guacamole/auth/jdbc/base/DirectoryObjectService.java:508 | returns every stored identifier |
| `Storage.Database.SelectReadableIdentifiers` | extensions/guacamole-auth-jdbc/modules/guacamole-auth-jdbc-base/src/main/java/org/glyptodon/guacamole/auth/jdbc/base/DirectoryObjectService.java:512 | returns the stored identifiers the user holds READ on |
| `Storage.Database.Insert` | extensions/guacamole-auth-jdbc/modules/guacamole-auth-jdbc-base/src/main/java/org/glyptodon/guacamole/auth/jdbc/base/DirectoryObjectService.java:407-410 | refuses, changing nothing, an identifier already stored; otherwise stores the model under its identifier with the next object ID written back, an ID no stored row carries, and returns it |
| `Storage.Database.Update` | extensions/guacamole-auth-jdbc/modules/guacamole-auth-jdbc-base/src/main/java/org/glyptodon/guacamole/auth/jdbc/base/DirectoryObjectService.java:486 | the object table becomes `Updated` of the old one |
| `Storage.Database.Delete` | extensions/guacamole-auth-jdbc/modules/guacamole-auth-jdbc-base/src/main/java/org/glyptodon/guacamole/auth/jdbc/base/DirectoryObjectService.java:461 | the identifier is removed from the object table, which is otherwise unchanged |
| `Storage.Database.InsertPermissions` | extensions/guacamole-auth-jdbc/modules/guacamole-auth-jdbc-base/src/main/java/org/glyptodon/guacamole/auth/jdbc/base/DirectoryObjectService.java:435 | the given grants are added to the permission table and nothing is removed |
| `DirectoryObjects.DirectoryObjectService.constructor` | extensions/guacamole-auth-jdbc/modules/guacamole-auth-jdbc-base/src/main/java/org/glyptodon/guacamole/auth/jdbc/base/DirectoryObjectService.java:70-137 | the service is built over valid storage with hooks whose wrappers are backed by the models they wrap |
| `DirectoryObjects.DirectoryObjectService.GetObjectInstances` | extensions/guacamole-auth-jdbc/modules/guacamole-auth-jdbc-base/src/main/java/org/glyptodon/guacamole/auth/jdbc/base/DirectoryObjectService.java:205-215 | one wrapped object per model, bound to the user, in the same order; the models behind them are the given models |
| `DirectoryObjects.DirectoryObjectService.GetImplicitPermissions` | extensions/guacamole-auth-jdbc/modules/guacamole-auth-jdbc-base/src/main/java/org/glyptodon/guacamole/auth/jdbc/base/DirectoryObjectService.java:381-405 | exactly four grants, in the order READ, UPDATE, DELETE, ADMINISTER, each carrying the user's object ID and username and the model's identifier |
| `DirectoryObjects.DirectoryObjectService.RetrieveObjects` | extensions/guacamole-auth-jdbc/modules/guacamole-auth-jdbc-base/src/main/java/org/glyptodon/guacamole/auth/jdbc/base/DirectoryObjectService.java:344-364 | no identifiers: empty result and no select; otherwise one select, returning each requested stored object the user can see (all for an administrator, the READ-granted ones otherwise) exactly once, wrapped for the user; tables unchanged |
| `DirectoryObjects.DirectoryObjectService.RetrieveObject` | extensions/guacamole-auth-jdbc/modules/guacamole-auth-jdbc-base/src/main/java/org/glyptodon/guacamole/auth/jdbc/base/DirectoryObjectService.java:309-326 | `None` exactly when the identifier is not stored or the user may not read it; otherwise the single stored object, wrapped for the user |
| `DirectoryObjects.DirectoryObjectService.CreateObject` | extensions/guacamole-auth-jdbc/modules/guacamole-auth-jdbc-base/src/main/java/org/glyptodon/guacamole/auth/jdbc/base/DirectoryObjectService.java:425-439 | `PermissionDenied` exactly for a non-administrator without create permission; on any failure neither table changes; on success the model is stored under its identifier with the counter's next value written back as its object ID, an ID no previously stored row carries, and the creator's four implicit grants are added |
| `DirectoryObjects.DirectoryObjectService.DeleteObject` | extensions/guacamole-auth-jdbc/modules/guacamole-auth-jdbc-base/src/main/java/org/glyptodon/guacamole/auth/jdbc/base/DirectoryObjectService.java:455-463 | `PermissionDenied`, with storage unchanged, exactly for a non-administrator without DELETE on the identifier; otherwise the identifier is removed; no effect on an identifier not stored |
| `DirectoryObjects.DirectoryObjectService.UpdateObject` | extensions/guacamole-auth-jdbc/modules/guacamole-auth-jdbc-base/src/main/java/org/glyptodon/guacamole/auth/jdbc/base/DirectoryObjectService.java:479-488 | `PermissionDenied`, with storage unchanged, exactly for a non-administrator without UPDATE on the object's identifier; otherwise the stored model is replaced; no effect on an identifier not stored |
| `DirectoryObjects.DirectoryObjectService.GetIdentifiers` | extensions/guacamole-auth-jdbc/modules/guacamole-auth-jdbc-base/src/main/java/org/glyptodon/guacamole/auth/jdbc/base/DirectoryObjectService.java:503-514 | all stored identifiers for an administrator; the READ-granted stored ones otherwise; always a subset of the stored identifiers, and exactly those the policy lets the user read |
| `DirectoryObjects.DirectoryObjectService.UpdateTwice` | extensions/guacamole-auth-jdbc/modules/guacamole-auth-jdbc-base/src/main/java/org/glyptodon/guacamole/auth/jdbc/base/DirectoryObjectService.java:479-488 | two updates with the same object give the same outcome and leave the object table as one update does |
| `DirectoryObjects.DirectoryObjectService.CreateThenRetrieve` | extensions/guacamole-auth-jdbc/modules/guacamole-auth-jdbc-base/src/main/java/org/glyptodon/guacamole/auth/jdbc/base/DirectoryObjectService.java:425-439 | after a successful creation, a retrieval of the new identifier by its creator returns the created object |

## Left out

- The SQL of the object and permission mappers is not part of this model. Each mapper call is replaced by its effect on the two tables (`storage.dfy`).
- The database schema's cascades are not modelled: deleting an object does not remove the grants on its identifier.
- The mapper's `update` is modelled as keyed by the model's identifier. How the real SQL picks the row to update is not part of this model.
- Exceptions other than the "Permission denied." security error and the duplicate-identifier refusal of insert are not modelled. This includes a failing `hasCreatePermission` or `getPermissionSet`, and database errors.
- `retrieveObjects` takes a Java `Collection<String>` of identifiers, which may repeat; the model takes a `set<string>`. Repeats change nothing, because the select returns each matching row once.
- Transactions are not modelled. The atomicity of the two inserts in `createObject` and concurrent requests belong to the surrounding framework. Each operation is one sequential step here.
- `getModelInstance`, `getObjectInstance` and `hasCreatePermission` are opaque function parameters. Their entity-specific meaning is not modelled. The identifier of a new object is whatever `getModelInstance` gives it.
- The `model` argument of `beforeCreate` is unused by its default behaviour and is not passed to `Policy.BeforeCreate`.
- Overriding the `before*` hooks or `hasObjectPermission` in entity-specific subclasses is not modelled. Only the default behaviour is.
