/**
 * The storage the service delegates to: the object mapper's table, keyed by
 * identifier, and the object permission table, a set of grants. The mappers'
 * SQL is not part of this model; each mapper operation is given here by
 * what it does to these two tables.
 */
module Storage {
  import opened Types
  import opened Grants

  /** The identifiers of a sequence of rows. */
  function IdentifiersOf<D>(rows: seq<ObjectModel<D>>): set<string>
  {
    set i | 0 <= i < |rows| :: rows[i].identifier
  }

  /** No identifier occurs twice among `rows`. */
  ghost predicate DistinctIdentifiers<D>(rows: seq<ObjectModel<D>>)
  {
    forall i, j :: 0 <= i < j < |rows| ==> rows[i].identifier != rows[j].identifier
  }

  /**
   * `rows` is what a select for the identifiers `wanted` returns from
   * `objects`: each wanted stored row once, in no particular order.
   */
  ghost predicate RowsOf<D>(rows: seq<ObjectModel<D>>, objects: map<string, ObjectModel<D>>, wanted: set<string>)
  {
    && IdentifiersOf(rows) == wanted
    && DistinctIdentifiers(rows)
    && forall i :: 0 <= i < |rows| ==> rows[i].identifier in objects && objects[rows[i].identifier] == rows[i]
  }

  /** Appending a row adds its identifier. */
  lemma IdentifiersOfAppend<D>(rows: seq<ObjectModel<D>>, row: ObjectModel<D>)
    ensures IdentifiersOf(rows + [row]) == IdentifiersOf(rows) + {row.identifier}
  {
    var longer := rows + [row];
    assert longer[|rows|] == row;
    forall id | id in IdentifiersOf(rows)
      ensures id in IdentifiersOf(longer)
    {
      var i :| 0 <= i < |rows| && rows[i].identifier == id;
      assert longer[i] == rows[i];
    }
  }

  /** Rows with distinct identifiers are as many as their identifiers. */
  lemma {:induction false} DistinctRowsCount<D>(rows: seq<ObjectModel<D>>)
    requires DistinctIdentifiers(rows)
    ensures |IdentifiersOf(rows)| == |rows|
  {
    if rows != [] {
      var n := |rows| - 1;
      var front := rows[..n];
      assert rows == front + [rows[n]];
      IdentifiersOfAppend(front, rows[n]);
      DistinctRowsCount(front);
      assert rows[n].identifier !in IdentifiersOf(front);
    }
  }

  /** A select returns exactly as many rows as identifiers it matched. */
  lemma RowsOfCount<D>(rows: seq<ObjectModel<D>>, objects: map<string, ObjectModel<D>>, wanted: set<string>)
    requires RowsOf(rows, objects, wanted)
    ensures |rows| == |wanted|
  {
    DistinctRowsCount(rows);
  }

  /**
   * The object table after the mapper's update of `model`: the stored row
   * with its identifier takes the model's contents but keeps the object ID
   * the database assigned it, and nothing happens if there is no such row.
   */
  function Updated<D>(objects: map<string, ObjectModel<D>>, model: ObjectModel<D>): (r: map<string, ObjectModel<D>>)
    ensures r.Keys == objects.Keys
    ensures model.identifier in objects ==>
      r[model.identifier] == model.(objectID := objects[model.identifier].objectID)
    ensures forall id :: id in objects && id != model.identifier ==> r[id] == objects[id]
  {
    if model.identifier in objects
    then objects[model.identifier := model.(objectID := objects[model.identifier].objectID)]
    else objects
  }

  /** Writing the same model twice leaves the table as writing it once. */
  lemma UpdateIdempotent<D>(objects: map<string, ObjectModel<D>>, model: ObjectModel<D>)
    ensures Updated(Updated(objects, model), model) == Updated(objects, model)
  {
  }

  /** The two tables behind one kind of directory object, and the mappers' operations on them. */
  class Database<D> {
    /** The object table: each stored row under its identifier. */
    var objects: map<string, ObjectModel<D>>
    /** The object permission table. */
    var permissions: set<ObjectPermissionModel>
    /** The object ID the next insert assigns. */
    var nextObjectID: nat
    /** The number of selects run so far. */
    ghost var queries: nat

    /**
     * Every row is stored under its own identifier, so identifiers are
     * unique, and every assigned object ID is below the next one.
     */
    ghost predicate Valid()
      reads this
    {
      && (forall id :: id in objects ==> objects[id].identifier == id)
      && (forall id :: id in objects && objects[id].objectID.Some? ==> objects[id].objectID.value < nextObjectID)
    }

    constructor ()
      ensures Valid()
      ensures objects == map[] && permissions == {} && nextObjectID == 0 && queries == 0
    {
      objects := map[];
      permissions := {};
      nextObjectID := 0;
      queries := 0;
    }

    /** Gathers the stored rows of `wanted`, one per identifier. */
    method CollectRows(wanted: set<string>) returns (rows: seq<ObjectModel<D>>)
      requires Valid()
      requires wanted <= objects.Keys
      ensures RowsOf(rows, objects, wanted)
    {
      rows := [];
      var remaining := wanted;
      while remaining != {}
        invariant remaining <= wanted
        invariant IdentifiersOf(rows) == wanted - remaining
        invariant DistinctIdentifiers(rows)
        invariant forall i :: 0 <= i < |rows| ==> rows[i].identifier in objects && objects[rows[i].identifier] == rows[i]
        decreases remaining
      {
        var id :| id in remaining;
        IdentifiersOfAppend(rows, objects[id]);
        rows := rows + [objects[id]];
        remaining := remaining - {id};
      }
    }

    /** The mapper's `select`: the stored rows among `identifiers`. */
    method Select(identifiers: set<string>) returns (rows: seq<ObjectModel<D>>)
      requires Valid()
      modifies this`queries
      ensures queries == old(queries) + 1
      ensures RowsOf(rows, objects, identifiers * objects.Keys)
    {
      queries := queries + 1;
      rows := CollectRows(identifiers * objects.Keys);
    }

    /** The mapper's `selectReadable`: the stored rows among `identifiers` that `user` holds READ on. */
    method SelectReadable(user: UserModel, identifiers: set<string>) returns (rows: seq<ObjectModel<D>>)
      requires Valid()
      modifies this`queries
      ensures queries == old(queries) + 1
      ensures RowsOf(rows, objects, identifiers * Readable(objects, permissions, user))
    {
      queries := queries + 1;
      rows := CollectRows(identifiers * Readable(objects, permissions, user));
    }

    /** The mapper's `selectIdentifiers`: every stored identifier. */
    method SelectIdentifiers() returns (ids: set<string>)
      modifies this`queries
      ensures queries == old(queries) + 1
      ensures ids == objects.Keys
    {
      queries := queries + 1;
      ids := objects.Keys;
    }

    /** The mapper's `selectReadableIdentifiers`: the stored identifiers `user` holds READ on. */
    method SelectReadableIdentifiers(user: UserModel) returns (ids: set<string>)
      modifies this`queries
      ensures queries == old(queries) + 1
      ensures ids == Readable(objects, permissions, user)
    {
      queries := queries + 1;
      ids := Readable(objects, permissions, user);
    }

    /**
     * The mapper's `insert`: stores `model` with the next object ID and
     * returns it as stored; refuses an identifier that is already stored.
     */
    method Insert(model: ObjectModel<D>) returns (r: Result<ObjectModel<D>>)
      requires Valid()
      modifies this`objects, this`nextObjectID
      ensures Valid()
      ensures old(model.identifier in objects) ==>
        r == Failure(DuplicateIdentifier) && objects == old(objects) && nextObjectID == old(nextObjectID)
      ensures old(model.identifier !in objects) ==>
        && r == Success(model.(objectID := Some(old(nextObjectID))))
        && objects == old(objects)[model.identifier := r.value]
        && nextObjectID == old(nextObjectID) + 1
        && forall id :: id in old(objects) ==> old(objects)[id].objectID != r.value.objectID
    {
      if model.identifier in objects {
        return Failure(DuplicateIdentifier);
      }
      var stored := model.(objectID := Some(nextObjectID));
      objects := objects[model.identifier := stored];
      nextObjectID := nextObjectID + 1;
      r := Success(stored);
    }

    /** The mapper's `update`: replaces the stored row with `model`'s identifier, if any. */
    method Update(model: ObjectModel<D>)
      requires Valid()
      modifies this`objects
      ensures Valid()
      ensures objects == Updated(old(objects), model)
    {
      objects := Updated(objects, model);
    }

    /** The mapper's `delete`: removes the row with `identifier`, if any. */
    method Delete(identifier: string)
      requires Valid()
      modifies this`objects
      ensures Valid()
      ensures objects == old(objects) - {identifier}
    {
      objects := objects - {identifier};
    }

    /** The permission mapper's `insert`: adds every grant in `grants`. */
    method InsertPermissions(grants: seq<ObjectPermissionModel>)
      modifies this`permissions
      ensures permissions == old(permissions) + (set g | g in grants)
    {
      permissions := permissions + (set g | g in grants);
    }
  }
}
