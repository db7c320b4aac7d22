/**
 * The directory object service: create, retrieve, update, delete and list
 * operations on one kind of directory object, each guarded by the
 * access-control policy before it reaches storage.
 */
module DirectoryObjects {
  import opened Types
  import opened Grants
  import opened Policy
  import opened Storage

  /**
   * One directory object service. `E` is the external form of an object,
   * `I` the internal wrapper handed back to callers, `D` the entity-specific
   * attributes of its storage model. The entity-specific hooks are fixed
   * when the service is built.
   */
  class DirectoryObjectService<E, I, D(!new)> {
    /** The object table and the permission table, reached through their mappers. */
    const db: Database<D>
    /** Builds the storage model of a new object from its external form. */
    const getModelInstance: (AuthenticatedUser, E) -> ObjectModel<D>
    /** Wraps a storage model into the object handed to `user`. */
    const getObjectInstance: (AuthenticatedUser, ObjectModel<D>) -> I
    /** The storage model behind a wrapped object. */
    const getModel: I -> ObjectModel<D>
    /** Whether a user may create this kind of object. */
    const hasCreatePermission: AuthenticatedUser -> bool

    /** A wrapped object is backed by the model it was built from. */
    ghost predicate WrapsModels()
    {
      forall u, m :: getModel(getObjectInstance(u, m)) == m
    }

    ghost predicate Valid()
      reads db
    {
      db.Valid() && WrapsModels()
    }

    constructor (db: Database<D>,
                 getModelInstance: (AuthenticatedUser, E) -> ObjectModel<D>,
                 getObjectInstance: (AuthenticatedUser, ObjectModel<D>) -> I,
                 getModel: I -> ObjectModel<D>,
                 hasCreatePermission: AuthenticatedUser -> bool)
      requires db.Valid()
      requires forall u, m :: getModel(getObjectInstance(u, m)) == m
      ensures Valid()
      ensures this.db == db && this.getModelInstance == getModelInstance
      ensures this.getObjectInstance == getObjectInstance && this.getModel == getModel
      ensures this.hasCreatePermission == hasCreatePermission
    {
      this.db := db;
      this.getModelInstance := getModelInstance;
      this.getObjectInstance := getObjectInstance;
      this.getModel := getModel;
      this.hasCreatePermission := hasCreatePermission;
    }

    /** The storage models behind a sequence of wrapped objects. */
    ghost function ModelsOf(objects: seq<I>): (models: seq<ObjectModel<D>>)
    {
      seq(|objects|, i requires 0 <= i < |objects| => getModel(objects[i]))
    }

    /** Wraps each model for `user`, keeping their number and order. */
    method GetObjectInstances(user: AuthenticatedUser, models: seq<ObjectModel<D>>) returns (objects: seq<I>)
      ensures |objects| == |models|
      ensures forall i :: 0 <= i < |models| ==> objects[i] == getObjectInstance(user, models[i])
      ensures WrapsModels() ==> ModelsOf(objects) == models
    {
      objects := [];
      for i := 0 to |models|
        invariant |objects| == i
        invariant forall k :: 0 <= k < i ==> objects[k] == getObjectInstance(user, models[k])
      {
        objects := objects + [getObjectInstance(user, models[i])];
      }
    }

    /**
     * The grants implied by `user` creating `model`: one per implicit
     * permission, in that order, each to `user` on `model`'s identifier.
     */
    method GetImplicitPermissions(user: AuthenticatedUser, model: ObjectModel<D>)
      returns (implicitPermissions: seq<ObjectPermissionModel>)
      ensures |implicitPermissions| == |ImplicitObjectPermissions| == 4
      ensures forall i :: 0 <= i < |implicitPermissions| ==>
        implicitPermissions[i] == ObjectPermissionModel(user.model.objectID, user.model.identifier,
                                                        ImplicitObjectPermissions[i], model.identifier)
      ensures (set g | g in implicitPermissions) == ImplicitGrants(user.model, model.identifier)
    {
      implicitPermissions := [];
      for i := 0 to |ImplicitObjectPermissions|
        invariant |implicitPermissions| == i
        invariant forall k :: 0 <= k < i ==>
          implicitPermissions[k] == ImplicitGrant(user.model, model.identifier, ImplicitObjectPermissions[k])
      {
        var permissionModel := ObjectPermissionModel(user.model.objectID, user.model.identifier,
                                                     ImplicitObjectPermissions[i], model.identifier);
        implicitPermissions := implicitPermissions + [permissionModel];
      }
      assert forall g :: g in implicitPermissions <==> g in ImplicitGrants(user.model, model.identifier) by {
        forall g ensures g in implicitPermissions <==> g in ImplicitGrants(user.model, model.identifier) {
          if g in ImplicitGrants(user.model, model.identifier) {
            var t :| t in ImplicitObjectPermissions && g == ImplicitGrant(user.model, model.identifier, t);
            var k :| 0 <= k < |ImplicitObjectPermissions| && ImplicitObjectPermissions[k] == t;
            assert implicitPermissions[k] == g;
          }
        }
      }
    }

    /**
     * The objects among `identifiers` that `user` can see, each once and
     * wrapped for `user`; no select at all when `identifiers` is empty.
     */
    method RetrieveObjects(user: AuthenticatedUser, identifiers: set<string>) returns (objects: seq<I>)
      requires Valid()
      modifies db`queries
      ensures Valid()
      ensures identifiers == {} ==> objects == [] && db.queries == old(db.queries)
      ensures identifiers != {} ==> db.queries == old(db.queries) + 1
      ensures RowsOf(ModelsOf(objects), db.objects, identifiers * Visible(db.objects, db.permissions, user))
      ensures forall i :: 0 <= i < |objects| ==> objects[i] == getObjectInstance(user, getModel(objects[i]))
    {
      if identifiers == {} {
        return [];
      }
      var models: seq<ObjectModel<D>>;
      if user.isAdministrator {
        models := db.Select(identifiers);
      } else {
        models := db.SelectReadable(user.model, identifiers);
      }
      objects := GetObjectInstances(user, models);
    }

    /**
     * The object `identifier` wrapped for `user`, or `None` when it is not
     * stored or `user` may not read it.
     */
    method RetrieveObject(user: AuthenticatedUser, identifier: string) returns (found: Option<I>)
      requires Valid()
      modifies db`queries
      ensures Valid()
      ensures db.queries == old(db.queries) + 1
      ensures found.None? <==>
        identifier !in db.objects || !HasObjectPermission(db.permissions, user, identifier, READ)
      ensures found.Some? ==>
        identifier in db.objects
        && found.value == getObjectInstance(user, db.objects[identifier])
        && getModel(found.value) == db.objects[identifier]
    {
      var objects := RetrieveObjects(user, {identifier});
      ghost var wanted := {identifier} * Visible(db.objects, db.permissions, user);
      RowsOfCount(ModelsOf(objects), db.objects, wanted);
      if |objects| == 0 {
        assert identifier !in wanted;
        return None;
      }
      // One match at most: identifiers are unique in storage.
      assert wanted == {identifier};
      assert |objects| == 1;
      assert ModelsOf(objects)[0].identifier in IdentifiersOf(ModelsOf(objects));
      found := Some(objects[0]);
    }

    /**
     * Creates `obj` on behalf of `user`: the creation check first, then
     * the insert, then the creator's implicit grants.
     */
    method CreateObject(user: AuthenticatedUser, obj: E) returns (r: Result<I>)
      requires Valid()
      modifies db`objects, db`permissions, db`nextObjectID
      ensures Valid()
      ensures r == Failure(PermissionDenied) <==> !user.isAdministrator && !hasCreatePermission(user)
      ensures r.Failure? ==>
        db.objects == old(db.objects) && db.permissions == old(db.permissions)
        && db.nextObjectID == old(db.nextObjectID)
      ensures (user.isAdministrator || hasCreatePermission(user)) ==>
        (r == Failure(DuplicateIdentifier) <==> getModelInstance(user, obj).identifier in old(db.objects))
      ensures r.Success? ==>
        var stored := getModelInstance(user, obj).(objectID := Some(old(db.nextObjectID)));
        && r.value == getObjectInstance(user, stored)
        && db.objects == old(db.objects)[stored.identifier := stored]
        && db.permissions == old(db.permissions) + ImplicitGrants(user.model, stored.identifier)
        && db.nextObjectID == old(db.nextObjectID) + 1
        && forall id :: id in old(db.objects) ==> old(db.objects)[id].objectID != stored.objectID
    {
      var model := getModelInstance(user, obj);
      var check := BeforeCreate(user, hasCreatePermission(user));
      if check.Fail? {
        return Failure(check.error);
      }
      var inserted := db.Insert(model);
      if inserted.Failure? {
        return Failure(inserted.error);
      }
      var implicitPermissions := GetImplicitPermissions(user, inserted.value);
      db.InsertPermissions(implicitPermissions);
      r := Success(getObjectInstance(user, inserted.value));
    }

    /**
     * Deletes `identifier` on behalf of `user`, who needs DELETE on it;
     * nothing happens when it is not stored.
     */
    method DeleteObject(user: AuthenticatedUser, identifier: string) returns (r: Outcome)
      requires Valid()
      modifies db`objects
      ensures Valid()
      ensures r.Fail? <==> !user.isAdministrator && !Granted(db.permissions, user.model.objectID, DELETE, identifier)
      ensures r.Fail? ==> r.error == PermissionDenied && db.objects == old(db.objects)
      ensures r.Pass? ==> db.objects == old(db.objects) - {identifier}
      ensures identifier !in old(db.objects) ==> db.objects == old(db.objects)
    {
      r := BeforeDelete(db.permissions, user, identifier);
      if r.Fail? {
        return;
      }
      db.Delete(identifier);
    }

    /**
     * Writes back the model of `obj` on behalf of `user`, who needs
     * UPDATE on its identifier; nothing happens when it is not stored.
     */
    method UpdateObject(user: AuthenticatedUser, obj: I) returns (r: Outcome)
      requires Valid()
      modifies db`objects
      ensures Valid()
      ensures r.Fail? <==>
        !user.isAdministrator && !Granted(db.permissions, user.model.objectID, UPDATE, getModel(obj).identifier)
      ensures r.Fail? ==> r.error == PermissionDenied && db.objects == old(db.objects)
      ensures r.Pass? ==> db.objects == Updated(old(db.objects), getModel(obj))
      ensures getModel(obj).identifier !in old(db.objects) ==> db.objects == old(db.objects)
    {
      var model := getModel(obj);
      r := BeforeUpdate(db.permissions, user, model);
      if r.Fail? {
        return;
      }
      db.Update(model);
    }

    /**
     * The identifiers of all stored objects for an administrator, of the
     * readable ones for anyone else.
     */
    method GetIdentifiers(user: AuthenticatedUser) returns (ids: set<string>)
      requires Valid()
      modifies db`queries
      ensures Valid()
      ensures db.queries == old(db.queries) + 1
      ensures user.isAdministrator ==> ids == db.objects.Keys
      ensures !user.isAdministrator ==> ids == Readable(db.objects, db.permissions, user.model)
      ensures ids <= db.objects.Keys
      ensures forall id :: id in ids <==> id in db.objects && HasObjectPermission(db.permissions, user, id, READ)
    {
      if user.isAdministrator {
        ids := db.SelectIdentifiers();
      } else {
        ids := db.SelectReadableIdentifiers(user.model);
      }
    }

    /** Updating twice with the same object has the effect of updating once. */
    method UpdateTwice(user: AuthenticatedUser, obj: I) returns (first: Outcome, second: Outcome)
      requires Valid()
      modifies db`objects
      ensures Valid()
      ensures second == first
      ensures db.objects == if first.Pass? then Updated(old(db.objects), getModel(obj)) else old(db.objects)
    {
      first := UpdateObject(user, obj);
      second := UpdateObject(user, obj);
      if first.Pass? {
        UpdateIdempotent(old(db.objects), getModel(obj));
      }
    }

    /** A creator can retrieve what it has just created. */
    method CreateThenRetrieve(user: AuthenticatedUser, obj: E) returns (created: Result<I>, retrieved: Option<I>)
      requires Valid()
      modifies db`objects, db`permissions, db`nextObjectID, db`queries
      ensures Valid()
      ensures created.Success? ==> retrieved == Some(created.value)
    {
      created := CreateObject(user, obj);
      var identifier := getModelInstance(user, obj).identifier;
      if created.Success? {
        CreatorHoldsImplicitPermissions(old(db.permissions), user, identifier, READ);
      }
      retrieved := RetrieveObject(user, identifier);
    }
  }
}
