/**
 * The database lib/db.js talks to, as an object whose three tables (and their
 * id sequences) change in place.  Each method issues the statements of the
 * db.js function of the same name, in the same order, and is proved to leave
 * exactly the tables (and return exactly the value or error) that the
 * corresponding function of module Tables describes; the properties of the
 * operations are proved there.
 */
module Database {
  import opened Common
  import opened Tables

  class Database {
    var owners: seq<Owner>
    var topics: seq<Topic>
    var materials: seq<Material>
    var nextOwnerId: int
    var nextTopicId: int
    var nextMaterialId: int

    function State(): DbState
      reads this
    {
      DbState(owners, topics, materials, nextOwnerId, nextTopicId, nextMaterialId)
    }

    ghost predicate Valid()
      reads this
    {
      WellFormed(State())
    }

    /** Empty tables, as `CREATE TABLE` leaves them. */
    constructor ()
      ensures State() == EMPTY && Valid()
    {
      owners := [];
      topics := [];
      materials := [];
      nextOwnerId := 1;
      nextTopicId := 1;
      nextMaterialId := 1;
      EmptyWellFormed();
    }

    /** `ensureSchema()`: the default-owner insert and the two updates, one statement at a time. */
    method EnsureSchema()
      requires Valid()
      modifies this
      ensures State() == WithSchema(old(State()))
      ensures Valid()
    {
      ghost var s := State();
      WithSchemaWellFormed(s);
      if FindOwnerBySlug(owners, DEFAULT_SLUG).None? {
        owners := owners + [Owner(nextOwnerId, DEFAULT_SLUG, DEFAULT_NAME, DEFAULT_SORT_ORDER)];
        nextOwnerId := nextOwnerId + 1;
      }
      owners := MapSeq(owners, RaiseDefault);
      var def := FindOwnerBySlug(owners, DEFAULT_SLUG);
      if def.Some? {
        var id := def.value.id;
        topics := MapSeq(topics, (t: Topic) => AdoptOrphan(t, id));
      }
    }

    /** `getOwnerBySlug(slug)` */
    method GetOwnerBySlug(slug: string) returns (r: Option<Owner>)
      requires Valid()
      modifies this
      ensures State() == WithSchema(old(State()))
      ensures r == FindOwnerBySlug(State().owners, slug)
      ensures Valid()
    {
      EnsureSchema();
      r := FindOwnerBySlug(owners, slug);
    }

    /** `listTopicsWithMaterials(ownerSlug)` */
    method ListTopicsWithMaterials(slug: string) returns (r: seq<TopicView>)
      requires Valid()
      modifies this
      ensures Tables.ListTopicsWithMaterials(old(State()), slug) == Outcome(Ok(r), State())
      ensures Valid()
    {
      EnsureSchema();
      r := ListTopics(State(), slug);
    }

    /** `createTopic(title, sortOrder, ownerSlug)` */
    method CreateTopic(title: string, sortOrder: int, slug: string) returns (r: Result<Topic, DbError>)
      requires Valid()
      modifies this
      ensures Tables.CreateTopic(old(State()), title, sortOrder, slug) == Outcome(r, State())
      ensures Valid()
    {
      ghost var s := State();
      CreateTopicSpec(s, title, sortOrder, slug);
      EnsureSchema();
      ghost var s0 := State();
      assert s0 == WithSchema(s);
      var owner := FindOwnerBySlug(owners, slug);
      if owner.None? || owner.value.id == 0 {
        return Err(OwnerNotFound);
      }
      var t := Topic(nextTopicId, title, sortOrder, Some(owner.value.id));
      topics := topics + [t];
      nextTopicId := nextTopicId + 1;
      return Ok(t);
    }

    /** `updateTopicOrder(reorderedIds)`: one `UPDATE` per position, in order. */
    method UpdateTopicOrder(ids: seq<int>)
      requires Valid()
      modifies this
      ensures State() == Tables.UpdateTopicOrder(old(State()), ids).db
      ensures Valid()
    {
      UpdateTopicOrderWellFormed(State(), ids);
      EnsureSchema();
      ghost var s1 := State();
      var i := 0;
      while i < |ids|
        invariant 0 <= i <= |ids|
        invariant State() == s1.(topics := Reordered(s1.topics, ids[..i]))
      {
        assert ids[..i + 1][..i] == ids[..i];
        topics := SetSortOrder(topics, ids[i], i);
        i := i + 1;
      }
      assert ids[..|ids|] == ids;
    }

    /** `createMaterial({ topicId, title, fileName, fileType, fileSize, blobUrl })` */
    method CreateMaterial(input: MaterialInput) returns (r: Result<Material, DbError>)
      requires Valid()
      modifies this
      ensures Tables.CreateMaterial(old(State()), input) == Outcome(r, State())
      ensures Valid()
    {
      CreateMaterialWellFormed(State(), input);
      EnsureSchema();
      if input.topicId.NaN? {
        return Err(InvalidInteger);
      }
      if SqlText(input.title).None? || SqlText(input.fileName).None? {
        return Err(NotNullViolation);
      }
      if !HasTopic(topics, input.topicId.i) {
        return Err(ForeignKeyViolation);
      }
      var m := Material(nextMaterialId, input.topicId.i, SqlText(input.title).value, SqlText(input.fileName).value,
                        StoredType(input.fileType), StoredSize(input.fileSize), input.blobUrl, true);
      materials := materials + [m];
      nextMaterialId := nextMaterialId + 1;
      return Ok(m);
    }

    /** `deleteMaterial(id)` */
    method DeleteMaterial(id: int) returns (blobUrl: Option<string>)
      requires Valid()
      modifies this
      ensures Tables.DeleteMaterial(old(State()), id) == Outcome(Ok(blobUrl), State())
      ensures Valid()
    {
      DeleteMaterialWellFormed(State(), id);
      EnsureSchema();
      var found := FindMaterial(materials, id);
      materials := Filter(materials, (m: Material) => m.id != id);
      blobUrl := if found.Some? then Some(found.value.blobUrl) else None;
    }

    /** `createOwner({ slug, name, sortOrder })` */
    method CreateOwner(slug: string, name: string, sortOrder: int) returns (r: Owner)
      requires Valid()
      modifies this
      ensures Tables.CreateOwner(old(State()), slug, name, sortOrder) == Outcome(Ok(r), State())
      ensures Valid()
    {
      CreateOwnerWellFormed(State(), slug, name, sortOrder);
      EnsureSchema();
      var found := FindOwnerBySlug(owners, slug);
      if found.Some? {
        owners := Rename(owners, slug, name);
        r := found.value.(name := name);
      } else {
        r := Owner(nextOwnerId, slug, name, sortOrder);
        owners := owners + [r];
        nextOwnerId := nextOwnerId + 1;
      }
    }

    /** `getOrCreateUnsortedTopic(ownerSlug)` */
    method GetOrCreateUnsortedTopic(slug: string) returns (r: Result<Topic, DbError>)
      requires Valid()
      modifies this
      ensures Tables.GetOrCreateUnsortedTopic(old(State()), slug) == Outcome(r, State())
      ensures Valid()
    {
      EnsureSchema();
      var owner := GetOwnerBySlug(slug);
      if owner.None? {
        return Err(OwnerNotFound);
      }
      var found := FindUnsorted(topics, owner.value.id);
      if found.Some? {
        return Ok(found.value);
      }
      r := CreateTopic(UNSORTED_TITLE, 0, slug);
    }

    /** `moveMaterialToOwner(materialId, ownerSlug)` */
    method MoveMaterialToOwner(materialId: int, slug: string) returns (r: Result<(), DbError>)
      requires Valid()
      modifies this
      ensures Tables.MoveMaterialToOwner(old(State()), materialId, slug) == Outcome(r, State())
      ensures Valid()
    {
      MoveMaterialToOwnerWellFormed(State(), materialId, slug);
      EnsureSchema();
      var target := GetOrCreateUnsortedTopic(slug);
      if target.Err? {
        return Err(target.error);
      }
      materials := MoveMaterial(materials, materialId, target.value.id);
      return Ok(());
    }

    /** `deleteOwner(ownerId)` */
    method DeleteOwner(ownerId: int) returns (r: Result<(), DbError>)
      requires Valid()
      modifies this
      ensures Tables.DeleteOwner(old(State()), ownerId) == Outcome(r, State())
      ensures Valid()
    {
      DeleteOwnerWellFormed(State(), ownerId);
      EnsureSchema();
      var def := GetOwnerBySlug(DEFAULT_SLUG);
      if def.None? {
        return Err(DefaultOwnerMissing);
      }
      if def.value.id == ownerId {
        return Err(CannotDeleteDefaultOwner);
      }
      var to := def.value.id;
      topics := Reassign(topics, ownerId, to);
      owners := Filter(owners, (o: Owner) => o.id != ownerId);
      return Ok(());
    }
  }
}
